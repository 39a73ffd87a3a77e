/** The collector service over its stored tables: one method per statement, and the run that issues them. */
module CollectorService {
  import opened Wrappers
  import opened AccountLog
  import opened CollectorProtocol
  import opened CollectorCoverage
  import opened CollectorLease
  import opened CollectorProgress
  import opened CollectorPacing

  class CollectorStore {
    const cfg: Settings
    var now: int
    var ledger: seq<Entry>
    var receipts: set<string>
    // Trade numbers whose receipt an archive removed.
    var erased: set<string>
    var demands: map<string, Demand>
    var row: Option<Row>
    var runs: map<nat, Run>
    var nextOwner: nat
    // The steps taken since the tables were created, and the tables at that time.
    ghost const birth: State
    ghost var log: seq<Step>

    ghost predicate Valid()
      reads this
    {
      Initial(birth) && View() == Replay(cfg, birth, log)
    }

    ghost function View(): State
      reads this
    {
      State(now, ledger, receipts, erased, demands, row, runs, nextOwner)
    }

    constructor (cfg: Settings, now: int)
      ensures Valid() && this.cfg == cfg && log == []
      ensures View() == State(now, [], {}, {}, map[], None, map[], 0)
    {
      this.cfg, this.now := cfg, now;
      ledger, receipts, erased, demands, row, runs, nextOwner := [], {}, {}, map[], None, map[], 0;
      birth, log := State(now, [], {}, {}, map[], None, map[], 0), [];
    }

    /** Whatever happened so far, the ledger is covered. */
    lemma AlwaysCovered()
      requires Valid()
      ensures Inv(cfg, View()) && Covered(cfg, View())
    {
      LedgerCovered(cfg, birth, log);
      InitialInv(cfg, birth);
      ReplayKeeps(cfg, birth, log);
    }

    /** The earliest start among the payments still in demand. */
    method CollectionDemand() returns (from: Option<int>)
      ensures from.Some? ==> EarliestDemand(cfg, View(), from.value)
      ensures from.None? ==> forall no | no in demands :: !Demanded(cfg, now, demands[no])
      ensures from.Some? ==> exists no | no in demands :: AsksFor(cfg, now, demands[no], from.value)
      ensures from.Some? ==>
                forall no, at | no in demands && AsksFor(cfg, now, demands[no], at) :: from.value <= at
      ensures from.None? <==> forall no, at | no in demands :: !AsksFor(cfg, now, demands[no], at)
    {
      from := None;
      var rest := demands.Keys;
      while rest != {}
        invariant rest <= demands.Keys
        invariant from.None? ==> forall no | no in demands && no !in rest :: !Demanded(cfg, now, demands[no])
        invariant from.Some? ==> exists no | no in demands ::
                    Demanded(cfg, now, demands[no]) && demands[no].validFrom == from.value
        invariant from.Some? ==> forall no | no in demands && no !in rest && Demanded(cfg, now, demands[no]) ::
                    from.value <= demands[no].validFrom
        decreases rest
      {
        var no :| no in rest;
        rest := rest - {no};
        if Demanded(cfg, now, demands[no]) && (from.None? || demands[no].validFrom < from.value) {
          from := Some(demands[no].validFrom);
        }
      }
    }

    /** The claim transaction for a demand already found. */
    method ClaimLease(from: int) returns (owner: Option<nat>)
      requires EarliestDemand(cfg, View(), from)
      modifies this`row, this`runs, this`nextOwner
      ensures View() == AfterClaim(cfg, old(View()), from)
      ensures owner.Some? ==> owner.value == old(nextOwner) && owner.value in runs && owner.value < nextOwner
                              && runs[owner.value].phase == Claimed && row.Some?
      ensures owner.Some? <==>
                (old(row).Some? ==>
                   && old(row).value.nextRunAt <= now
                   && (old(row).value.lockedUntil.Some? ==> old(row).value.lockedUntil.value <= now))
      ensures row.Some?
      ensures row.value.pos == if old(row).Some? then old(row).value.pos else Position(from, None, 1)
      ensures row.value.nextRunAt == if old(row).Some? then old(row).value.nextRunAt else now
      ensures owner.Some? ==> row.value.leaseOwner == owner && row.value.lockedUntil == Some(now + 60_000)
      ensures owner.None? ==> row == old(row) && runs == old(runs)
    {
      owner := None;
      if row.None? {
        row := Some(Row(Position(from, None, 1), None, None, now));
      }
      var current := row.value;
      if current.nextRunAt <= now && (current.lockedUntil.None? || current.lockedUntil.value <= now) {
        owner := Some(nextOwner);
        row := Some(current.(leaseOwner := owner, lockedUntil := Some(now + LEASE)));
        runs := runs[nextOwner := Run(now, from, Claimed)];
        nextOwner := nextOwner + 1;
      }
    }

    /** One statement of some run, or one event of the world. */
    method Execute(step: Step)
      requires Valid()
      modifies this
      ensures Valid() && log == old(log) + [step]
      ensures View() == Apply(cfg, old(View()), step)
    {
      hide Apply;
      log := log + [step];
      assert log[..|log| - 1] == old(log);
      if Actor(step).Some? {
        ExecuteStatement(step);
      } else {
        ExecuteEvent(step);
      }
    }

    method ExecuteEvent(step: Step)
      requires Actor(step).None?
      modifies this`now, this`ledger, this`receipts, this`erased, this`demands, this`row, this`runs, this`nextOwner
      ensures View() == Apply(cfg, old(View()), step)
    {
      match step
      case Tick(d) => now := now + d;
      case LedgerLine(e) =>
        if e.time >= now - Lag(cfg) { ledger := ledger + [e]; }
      case NewPayment(no, validUntil) =>
        if no !in demands && validUntil > now { demands := demands[no := Demand(now, validUntil, false)]; }
      case Paid(no) =>
        if no in demands { demands := demands[no := demands[no].(paid := true)]; }
      case Dropped(no) => demands := demands - {no};
      case Wake =>
        if row.Some? { row := Some(row.value.(nextRunAt := now)); }
      case Erase(tradeNo) =>
        if tradeNo in receipts { receipts, erased := receipts - {tradeNo}, erased + {tradeNo}; }
      case Claim(from) =>
        if EarliestDemand(cfg, State(now, ledger, receipts, erased, demands, row, runs, nextOwner), from) {
          var _ := ClaimLease(from);
        }
    }

    method ExecuteStatement(step: Step)
      requires Actor(step).Some?
      modifies this`now, this`ledger, this`receipts, this`erased, this`demands, this`row, this`runs, this`nextOwner
      ensures View() == Apply(cfg, old(View()), step)
    {
      hide AfterLoad, AfterSkipIdle, AfterPlan, AfterReload, AfterRenew, AfterFetch, AfterIngest, AfterCommit,
           AfterFail, AfterRelease, AfterPace;
      if Actor(step).value !in runs {
        return;
      }
      match step
      case Load(o) => ReadRow(o);
      case SkipIdle(o) => SkipIdleHistory(o);
      case Plan(o) => PlanWindow(o);
      case Reload(o) => RereadRow(o);
      case Renew(o) => RenewLease(o);
      case Fetch(o, response) => FetchPage(o, response);
      case Ingest(o) => IngestRecord(o);
      case Commit(o) => CommitPage(o);
      case Stop(o) => SetPhase(o, Leaving);
      case Fail(o, retryAt) => RecordFailure(o, retryAt);
      case Release(o) => ReleaseLease(o);
      case Pace(o, pollAt) => PaceNextRun(o, pollAt);
      case Crash(o) => runs := runs - {o};
    }

    /** The row, once written, stays, and its cursor never moves back. */
    static predicate Forward(a: Option<Row>, b: Option<Row>) {
      a.Some? ==> b.Some? && a.value.pos.cursorAt <= b.value.pos.cursorAt
    }

    lemma MovesForward(step: Step)
      requires Valid()
      ensures Forward(row, Apply(cfg, View(), step).row)
    {
      AlwaysCovered();
      if row.Some? {
        StepIsSoloMove(cfg, View(), step);
      }
    }

    /** A step of the world or of another run leaves run `me` alone. */
    method ExecuteOther(step: Step, me: nat)
      requires Valid() && me in runs && me < nextOwner && Actor(step) != Some(me)
      modifies this
      ensures Valid() && Forward(old(row), row)
      ensures me in runs && runs[me] == old(runs[me]) && me < nextOwner
      ensures !Owns(old(View()), me) ==> !Owns(View(), me)
    {
      MovesForward(step);
      Execute(step);
    }

    /** A statement of run `me` that does not end it. */
    method ExecuteOwn(step: Step, me: nat)
      requires Valid() && me in runs && me < nextOwner
      requires Actor(step) == Some(me) && !step.Pace? && !step.Crash?
      modifies this
      ensures Valid() && Forward(old(row), row)
      ensures View() == Apply(cfg, old(View()), step)
      ensures me in runs && me < nextOwner
      ensures step.Stop? || step.Fail? ==> runs[me].phase.Leaving?
      ensures step.Release? && old(runs[me].phase).Leaving? ==> runs[me].phase.Pacing? && !Owns(View(), me)
      ensures step.Ingest? && RecordsLeft(old(runs[me].phase)) > 0 ==>
                RecordsLeft(runs[me].phase) < RecordsLeft(old(runs[me].phase))
      ensures !step.Fail? && !step.Release? ==> LeaseKept(old(View()), View(), me)
    {
      MovesForward(step);
      if !step.Fail? && !step.Release? { OwnStepKeeps(cfg, View(), step, me); }
      Execute(step);
    }

    /** How many records of its page a run still has to write. */
    static function RecordsLeft(phase: Phase): int {
      if phase.Ingesting? && phase.current.window.Some? then |phase.page.records| - phase.done else 0
    }

    /** What the rest of the system does while run `me` is between two statements. */
    method Interleave(others: seq<Step>, me: nat)
      requires Valid() && me in runs && me < nextOwner
      modifies this
      ensures Valid() && Forward(old(row), row)
      ensures me in runs && runs[me] == old(runs[me]) && me < nextOwner
      ensures !Owns(old(View()), me) ==> !Owns(View(), me)
      ensures others == [] ==> View() == old(View())
    {
      hide Valid;
      for i := 0 to |others|
        invariant Valid() && Forward(old(row), row)
        invariant me in runs && runs[me] == old(runs[me]) && me < nextOwner
        invariant !Owns(old(View()), me) ==> !Owns(View(), me)
        invariant others == [] ==> View() == old(View())
      {
        if Actor(others[i]) != Some(me) {
          ExecuteOther(others[i], me);
        }
      }
    }

    /**
     One run of the collector. `others(i)` is what the rest of the system commits at the i-th pause of
     this run and `answers(k)` is the gateway's k-th answer; both are arbitrary. `goOn` stands for the
     revision and demand checks after a page. The run ends released, and the ledger stays covered; a run
     that nobody disturbs reads five pages of its window, or finishes it, and one that fails backs off.
     */
    method RunAlipayBillCollector(others: nat -> seq<Step>, answers: nat -> Response, goOn: nat -> bool, retryAt: int,
                                  pollAt: int)
      returns (owner: Option<nat>, failed: bool)
      requires Valid()
      modifies this
      ensures Valid() && Forward(old(row), row)
      ensures Covered(cfg, View())
      ensures owner.Some? <==> Free(old(View())) && exists from :: EarliestDemand(cfg, old(View()), from)
      ensures owner.Some? ==> owner.value !in runs && !Owns(View(), owner.value)
      ensures owner.None? && old(row).Some? ==> View() == old(View())
      ensures owner.Some? && Undisturbed(others) && (forall k :: goOn(k)) ==>
                exists from :: EarliestDemand(cfg, old(View()), from) && Progress(old(View()), from, answers)
      ensures owner.Some? && Undisturbed(others) ==>
                NextStart(View()) == Some(if failed && retryAt > old(now) then retryAt else pollAt)
    {
      hide Valid, Apply, Free, EarliestDemand, Covered, Owns;
      owner, failed := None, false;
      AlwaysCovered();
      var demand := CollectionDemand();
      if demand.Some? {
        var candidate := nextOwner;
        ghost var s := View();
        NextOwnerFree();
        ClaimProceeds(cfg, s, demand.value);
        MovesForward(Claim(demand.value));
        Execute(Claim(demand.value));
        AlwaysCovered();
        if candidate in runs {
          owner := Some(candidate);
          ghost var t := View();
          ClaimedJustNow(s, demand.value);
          failed := WorkAndRelease(candidate, others, answers, goOn, retryAt, pollAt);
          assert Undisturbed(others) && (forall k :: goOn(k)) ==> Progress(s, demand.value, answers);
        }
      } else {
        NothingDemanded();
      }
      AlwaysCovered();
    }

    /** A run is claimed at once, and when its time has come. */
    lemma ClaimedJustNow(s: State, from: int)
      requires s.nextOwner !in s.runs && s.nextOwner in Apply(cfg, s, Claim(from)).runs
      ensures var t := Apply(cfg, s, Claim(from));
              && t.runs[s.nextOwner].claimedAt == s.now == t.now && Owns(t, s.nextOwner)
              && t.row.value.nextRunAt <= s.now
    {
    }

    /** Answered truthfully, a run moved the position it found as far as one run goes. */
    ghost predicate Progress(s: State, from: int, answers: nat -> Response)
      reads this
    {
      AnswersInOrder(s, Opening(cfg, Found(s, from), from, s.now), answers) ==>
        row.Some? && row.value.pos == Moved(cfg, s, Found(s, from), from, s.now) && ledger == s.ledger
    }

    lemma NothingDemanded()
      requires forall no | no in demands :: !Demanded(cfg, now, demands[no])
      ensures forall from :: !EarliestDemand(cfg, View(), from)
    {
    }

    lemma NextOwnerFree()
      requires Inv(cfg, View())
      ensures nextOwner !in runs
    {
      assert nextOwner in runs ==> RunOk(cfg, View(), nextOwner);
    }

    /** Pages are counted from one. */
    lemma PagesFromOne()
      requires Valid()
      ensures Stored(View()).window.Some? ==> Stored(View()).nextPage >= 1
    {
      AlwaysCovered();
    }

    /** What the world does between two runs. */
    method Wait(world: seq<Step>)
      requires Valid() && row.Some? && row.value.pos.window.Some? && forall i | 0 <= i < |world| :: IsWorld(world[i])
      modifies this
      ensures Valid() && row.Some? && row.value.pos == old(row).value.pos
      ensures Query(ledger, row.value.pos.window.value) == Query(old(ledger), row.value.pos.window.value)
    {
      hide Valid, Apply, Inv, Query;
      for i := 0 to |world|
        invariant Valid() && row.Some? && row.value.pos == old(row).value.pos
        invariant Query(ledger, row.value.pos.window.value) == Query(old(ledger), row.value.pos.window.value)
      {
        AlwaysCovered();
        WorldLeavesWindow(cfg, View(), world[i]);
        Execute(world[i]);
      }
    }

    /**
     Runs against a truthful gateway, undisturbed but for what the world does in between, until the open window is
     closed or the rounds are over. A round without demand, or at which the collector is not due, is no run.
     */
    method FinishWindow(rounds: nat, world: nat -> seq<Step>, retryAt: int, pollAt: int) returns (done: nat)
      requires Valid() && row.Some? && row.value.pos.window.Some? && Clear(ledger, row.value.pos.window.value)
      requires forall i, k | 0 <= k < |world(i)| :: IsWorld(world(i)[k])
      modifies this
      ensures Valid() && row.Some? && done <= rounds
      ensures row.value.pos == AfterRuns(Stored(old(View())), Total(old(View()), Stored(old(View()))), done)
      ensures done >= 1 ==>
                var pos := old(row).value.pos;
                && (row.value.pos.window.None?
                    <==> (pos.nextPage - 1 + done * MAX_PAGES_PER_RUN) * PAGE_SIZE >= |Query(old(ledger),
                             pos.window.value)|)
                && (row.value.pos.window.None? ==> row.value.pos.cursorAt == pos.window.value.end)
    {
      hide Valid, Apply, Query, AfterRuns, Reading;
      ghost var first := View();
      var pos, list := row.value.pos, Query(ledger, row.value.pos.window.value);
      PagesFromOne();
      NoRunYet(pos, |list|);
      done := 0;
      var i := 0;
      while i < rounds && row.value.pos.window.Some?
        invariant 0 <= done <= i <= rounds
        invariant Valid() && row.Some? && row.value.pos == AfterRuns(pos, |list|, done)
        invariant row.value.pos.window.Some? ==>
                    row.value.pos.window == pos.window && Query(ledger, pos.window.value) == list
      {
        Wait(world(i));
        var ran := RunOnce(list, retryAt, pollAt);
        if ran {
          OneRunMore(pos, |list|, done);
          ReadingWindow(AfterRuns(pos, |list|, done), |list|);
          done := done + 1;
        }
        i := i + 1;
      }
      if done >= 1 { WindowFinishes(pos, |list|, done); }
    }

    lemma NoRunYet(pos: Position, total: nat)
      ensures AfterRuns(pos, total, 0) == pos
    {
    }

    lemma ReadingWindow(pos: Position, total: nat)
      requires pos.window.Some?
      ensures Reading(pos, total, MAX_PAGES_PER_RUN).window.Some? ==>
                Reading(pos, total, MAX_PAGES_PER_RUN).window == pos.window
    {
    }

    /** One run against a truthful gateway, if it gets to start. */
    method RunOnce(list: seq<Entry>, retryAt: int, pollAt: int) returns (ran: bool)
      requires Valid() && row.Some? && row.value.pos.window.Some?
      requires Clear(ledger, row.value.pos.window.value) && Query(ledger, row.value.pos.window.value) == list
      modifies this
      ensures Valid() && row.Some? && ledger == old(ledger)
      ensures row.value.pos == if ran then Reading(old(row).value.pos, |list|, MAX_PAGES_PER_RUN)
              else old(row).value.pos
    {
      hide Valid, Apply, Query, Reading, Covered, EarliestDemand;
      var pos, n := row.value.pos, row.value.pos.nextPage;
      PagesFromOne();
      ghost var s := View();
      var answers := (k: nat) => if n + k >= 1 then Truthful(list, n + k, PAGE_SIZE) else Response(None, None);
      var owner, _ := RunAlipayBillCollector(i => [], answers, k => true, retryAt, pollAt);
      ran := owner.Some?;
      if ran {
        ghost var from :| EarliestDemand(cfg, s, from) && Progress(s, from, answers);
        OpenAlready(pos, from, s.now);
        forall k: nat | k < MAX_PAGES_PER_RUN
          ensures Honest(answers(k), Query(s.ledger, pos.window.value), pos.nextPage + k, PAGE_SIZE)
        {
          assert answers(k) == Truthful(list, n + k, PAGE_SIZE);
        }
        assert AnswersInOrder(s, pos, answers);
      }
    }

    method WorkAndRelease(me: nat, others: nat -> seq<Step>, answers: nat -> Response, goOn: nat -> bool, retryAt: int,
                          pollAt: int)
      returns (failed: bool)
      requires Valid() && me in runs && me < nextOwner
      modifies this
      ensures Valid() && Forward(old(row), row)
      ensures me !in runs && !Owns(View(), me)
      ensures Undisturbed(others) && (forall k :: goOn(k)) && At(old(View()), me, Stored(old(View())), Claimed)
              && AnswersInOrder(old(View()),
                                Opening(cfg, Stored(old(View())), old(runs[me].demandFrom), old(runs[me].claimedAt)),
                                  answers) ==>
                && row.Some? && ledger == old(ledger)
                && row.value.pos
                   == Moved(cfg, old(View()), Stored(old(View())), old(runs[me].demandFrom), old(runs[me].claimedAt))
      ensures Undisturbed(others) && Owns(old(View()), me) ==>
                NextStart(View())
                == Some(if (if failed then retryAt else old(row).value.nextRunAt) <= old(runs[me].claimedAt) then pollAt
                        else if failed then retryAt else old(row).value.nextRunAt)
    {
      hide Valid, Apply, Opening, Reading, Honest, Query, HoldsLiveLease;
      ghost var s := View();
      ghost var quiet := Undisturbed(others) && (forall k :: goOn(k)) && At(s, me, Stored(s), Claimed)
                         && AnswersInOrder(s, Opening(cfg, Stored(s), runs[me].demandFrom, runs[me].claimedAt),
                                           answers);
      Interleave(others(0), me);
      failed := Work(me, others, answers, goOn);
      if quiet { LeavingKeeps(cfg, View(), me, pollAt); }
      if Undisturbed(others) && failed && Owns(View(), me) { FailWrites(cfg, View(), me, retryAt); }
      Statement(others(1), if failed then Fail(me, retryAt) else Stop(me), me);
      ReleaseAndLeave(me, others, pollAt);
    }

    /** The lease is released in any case, then the next run is paced. */
    method ReleaseAndLeave(me: nat, others: nat -> seq<Step>, pollAt: int)
      requires Valid() && me in runs && me < nextOwner && runs[me].phase.Leaving?
      modifies this
      ensures Valid() && Forward(old(row), row)
      ensures me !in runs && !Owns(View(), me)
      ensures Undisturbed(others) && old(row).Some? ==>
                row.Some? && ledger == old(ledger) && row.value.pos == old(row).value.pos
      ensures Undisturbed(others) && Owns(old(View()), me) ==>
                NextStart(View()) == Some(if old(row).value.nextRunAt <= old(runs[me].claimedAt) then pollAt
                                          else old(row).value.nextRunAt)
    {
      hide Valid, Apply, HoldsLiveLease;
      ghost var quiet := Undisturbed(others) && row.Some?;
      Interleave(others(2), me);
      if quiet { LeavingKeeps(cfg, View(), me, pollAt); }
      if Owns(View(), me) { ReleaseFrees(cfg, View(), me); }
      ExecuteOwn(Release(me), me);
      Interleave(others(6), me);
      if quiet { LeavingKeeps(cfg, View(), me, pollAt); }
      if row.Some? { PaceWrites(cfg, View(), me, pollAt); }
      Leave(me, pollAt);
    }

    /** The window is opened or resumed, and pages of it are collected. */
    method Work(me: nat, others: nat -> seq<Step>, answers: nat -> Response, goOn: nat -> bool) returns (failed: bool)
      requires Valid() && me in runs && me < nextOwner
      modifies this
      ensures Valid() && Forward(old(row), row) && me in runs && me < nextOwner
      ensures Undisturbed(others) && (forall k :: goOn(k)) && At(old(View()), me, Stored(old(View())), Claimed)
              && AnswersInOrder(old(View()),
                                Opening(cfg, Stored(old(View())), old(runs[me].demandFrom), old(runs[me].claimedAt)),
                                  answers) ==>
                && !failed && row.Some? && ledger == old(ledger)
                && row.value.pos
                   == Moved(cfg, old(View()), Stored(old(View())), old(runs[me].demandFrom), old(runs[me].claimedAt))
      ensures Undisturbed(others) ==> LeaseKept(old(View()), View(), me)
    {
      hide Valid, Apply, Opening, Reading, Honest, Query, HoldsLiveLease;
      OpenOrResume(me, others);
      PagesFromOne();
      failed := CollectPages(me, others, answers, goOn);
    }

    method Leave(me: nat, pollAt: int)
      requires Valid() && me in runs && runs[me].phase.Pacing? && !Owns(View(), me)
      modifies this
      ensures Valid() && Forward(old(row), row)
      ensures me !in runs && !Owns(View(), me)
      ensures View() == Apply(cfg, old(View()), Pace(me, pollAt))
    {
      MovesForward(Pace(me, pollAt));
      Execute(Pace(me, pollAt));
    }

    /** Up to five pages; undisturbed and answered truthfully, five pages or the rest of the window. */
    method CollectPages(me: nat, others: nat -> seq<Step>, answers: nat -> Response, goOn: nat -> bool)
      returns (failed: bool)
      requires Valid() && me in runs && me < nextOwner
      modifies this
      ensures Valid() && Forward(old(row), row) && me in runs && me < nextOwner
      ensures old(runs[me].phase).Leaving? ==> !failed && View() == old(View())
      ensures Undisturbed(others) && (forall k :: goOn(k)) && FirstRead(old(View()), me, answers) ==>
                !failed && PagesRead(old(View()), View(), me)
      ensures Undisturbed(others) && Reads(old(View()), me)
              && AccountLogPage(answers(0), Stored(old(View())).nextPage, PAGE_SIZE).Err? ==>
                failed && Stored(View()) == Stored(old(View()))
      ensures Undisturbed(others) ==> LeaseKept(old(View()), View(), me)
    {
      hide Valid, Apply, AnswersInOrder, Reads, ReadSoFar, PageTurned, PagesRead, Honest, Query, AccountLogPage, Stored,
           LeaseKept;
      ghost var first := View();
      ghost var quiet := Undisturbed(others) && (forall k :: goOn(k)) && FirstRead(View(), me, answers);
      ghost var refused := Undisturbed(others) && Reads(first, me)
                           && AccountLogPage(answers(0), Stored(first).nextPage, PAGE_SIZE).Err?;
      if quiet { ReadingStarts(first, me); }
      if refused { ReadsIsReady(first, me); }
      KeptFirst(first, me);
      failed := false;
      var step := 0;
      while step < MAX_PAGES_PER_RUN && runs[me].phase.Ready?
        invariant 0 <= step <= MAX_PAGES_PER_RUN
        invariant Valid() && Forward(old(row), row) && me in runs && me < nextOwner
        invariant old(runs[me].phase).Leaving? ==> !failed && View() == first
        invariant Undisturbed(others) ==> LeaseKept(first, View(), me)
        invariant quiet ==> !failed && ReadSoFar(first, View(), me, step)
        invariant refused ==> if step == 0 then View() == first
                              else failed && runs[me].phase.Leaving? && Stored(View()) == Stored(first)
      {
        ghost var before := View();
        if quiet { NextPage(first, before, me, step, answers); }
        failed := CollectPage(me, others, answers(step), 10 + step * 1000);
        if quiet { OnePageMore(cfg, first, before, View(), me, step); }
        ghost var committed := View();
        step := step + 1;
        if runs[me].phase.Committed? && goOn(step) {
          ExecuteOwn(Reload(me), me);
          KeptOn(before, committed, View(), me);
        }
        KeptOn(first, before, View(), me);
      }
      if quiet { ReadingEnds(first, View(), me, step); }
    }

    lemma ReadsIsReady(s: State, me: nat)
      requires Reads(s, me)
      ensures s.runs[me].phase.Ready?
    {
    }

    /** A statement of run `me`, after whatever the rest of the system did. */
    method Statement(others: seq<Step>, step: Step, me: nat)
      requires Valid() && me in runs && me < nextOwner
      requires Actor(step) == Some(me) && !step.Pace? && !step.Crash?
      modifies this
      ensures Valid() && Forward(old(row), row) && me in runs && me < nextOwner
      ensures others == [] ==> View() == Apply(cfg, old(View()), step)
      ensures step.Stop? || step.Fail? ==> runs[me].phase.Leaving?
      ensures step.Release? && old(runs[me].phase).Leaving? ==> runs[me].phase.Pacing? && !Owns(View(), me)
      ensures step.Ingest? && RecordsLeft(old(runs[me].phase)) > 0 ==>
                RecordsLeft(runs[me].phase) < RecordsLeft(old(runs[me].phase))
      ensures others == [] && !step.Fail? && !step.Release? ==> LeaseKept(old(View()), View(), me)
    {
      hide Valid, Apply;
      Interleave(others, me);
      ExecuteOwn(step, me);
    }

    /** Read the row; without an open window, skip idle history and open the next window. */
    method OpenOrResume(me: nat, others: nat -> seq<Step>)
      requires Valid() && me in runs && me < nextOwner
      modifies this
      ensures Valid() && Forward(old(row), row) && me in runs && me < nextOwner
      ensures Undisturbed(others) && At(old(View()), me, Stored(old(View())), Claimed) ==>
                Opens(old(View()), View(), me)
      ensures Undisturbed(others) ==> LeaseKept(old(View()), View(), me)
    {
      hide Valid, Apply, Opening, HoldsLiveLease;
      ghost var first, pos := View(), Stored(View());
      ghost var quiet := Undisturbed(others) && At(View(), me, pos, Claimed);
      if quiet { LoadProceeds(cfg, View(), me, pos); OpenAlready(pos, runs[me].demandFrom, runs[me].claimedAt); }
      Statement([], Load(me), me);
      if runs[me].phase.Loaded? { OpenWindow(me, others); }
    }

    /** What opening makes of the stored position. */
    predicate Opens(s: State, t: State, me: nat)
      requires me in s.runs
    {
      var pos := Opening(cfg, Stored(s), s.runs[me].demandFrom, s.runs[me].claimedAt);
      Still(s, t, me) && At(t, me, pos, if pos.window.Some? then Ready(pos, 0) else Leaving)
    }

    lemma OpenAlready(pos: Position, demandFrom: int, now: int)
      ensures pos.window.Some? ==> Opening(cfg, pos, demandFrom, now) == pos
    {
    }

    /** No window is open: skip idle history, then open the next window. */
    method OpenWindow(me: nat, others: nat -> seq<Step>)
      requires Valid() && me in runs && me < nextOwner && runs[me].phase.Loaded?
      modifies this
      ensures Valid() && Forward(old(row), row) && me in runs && me < nextOwner
      ensures Undisturbed(others) && At(old(View()), me, Stored(old(View())), Loaded(Stored(old(View()))))
              && Stored(old(View())).window.None? ==>
                Opens(old(View()), View(), me)
      ensures Undisturbed(others) ==> LeaseKept(old(View()), View(), me)
    {
      hide Valid, Apply, HoldsLiveLease, CollectorWindow, Owns;
      ghost var first, pos := View(), Stored(View());
      ghost var quiet := Undisturbed(others) && At(first, me, pos, Loaded(pos)) && pos.window.None?;
      if runs[me].phase.current.cursorAt < runs[me].demandFrom {
        if quiet { SkipProceeds(cfg, first, me, pos); }
        Statement(others(3), SkipIdle(me), me);
      }
      PlanAndReload(me, others);
    }

    /** The window is planned from the cursor; a run that stored one reads its row again. */
    method PlanAndReload(me: nat, others: nat -> seq<Step>)
      requires Valid() && me in runs && me < nextOwner
      modifies this
      ensures Valid() && Forward(old(row), row) && me in runs && me < nextOwner
      ensures Undisturbed(others) && Plans(old(View()), me) ==> Opens(old(View()), View(), me)
      ensures Undisturbed(others) ==> LeaseKept(old(View()), View(), me)
    {
      hide Valid, Apply, HoldsLiveLease, CollectorWindow;
      ghost var first, pos := View(), Stored(View());
      ghost var quiet := Undisturbed(others) && Plans(first, me);
      if quiet { PlanProceeds(cfg, first, me, pos); }
      Statement(others(4), Plan(me), me);
      if runs[me].phase.Opened? {
        if quiet { RereadProceeds(cfg, View(), me, Stored(View())); }
        Statement(others(5), Reload(me), me);
      }
    }

    predicate Plans(s: State, me: nat) {
      && At(s, me, Stored(s), Loaded(Stored(s))) && Stored(s).window.None?
      && Stored(s).cursorAt >= s.runs[me].demandFrom
    }

    /** Renew the lease, fetch one page, write its receipts one by one, then commit the page. */
    method CollectPage(me: nat, others: nat -> seq<Step>, answer: Response, pause: nat) returns (failed: bool)
      requires Valid() && me in runs && me < nextOwner
      modifies this
      ensures Valid() && Forward(old(row), row) && me in runs && me < nextOwner
      ensures Undisturbed(others) && Reads(old(View()), me) && Answered(old(View()), answer) ==>
                !failed && PageTurned(old(View()), View(), me)
      ensures Undisturbed(others) && Reads(old(View()), me)
              && AccountLogPage(answer, Stored(old(View())).nextPage, PAGE_SIZE).Err? ==>
                failed && runs[me].phase.Leaving? && Stored(View()) == Stored(old(View()))
      ensures Undisturbed(others) ==> LeaseKept(old(View()), View(), me)
    {
      hide Valid, Apply, Honest, Query, PageOf, InsideWindow;
      ghost var first, pos := View(), Stored(View());
      ghost var quiet := Undisturbed(others) && Reads(first, me) && Answered(first, answer);
      ghost var steps := if quiet then runs[me].phase.steps else 0;
      if quiet { RenewProceeds(cfg, first, me, pos, steps); }
      if Reads(first, me) { RenewProceeds(cfg, first, me, pos, runs[me].phase.steps); }
      failed := true;
      Statement(others(pause), Renew(me), me);
      if runs[me].phase.Fetching? { failed := FetchAndCommit(me, others, answer, pause, pos, steps); }
    }

    method FetchAndCommit(me: nat, others: nat -> seq<Step>, answer: Response, pause: nat, ghost pos: Position,
                          ghost steps: nat) returns (failed: bool)
      requires Valid() && me in runs && me < nextOwner
      modifies this
      ensures Valid() && Forward(old(row), row) && me in runs && me < nextOwner
      ensures Undisturbed(others) && At(old(View()), me, pos, Fetching(pos, steps)) && pos.nextPage >= 1
              && Answered(old(View()), answer) ==>
                !failed && TurnsPage(old(View()), View(), me, pos, steps)
      ensures Undisturbed(others) && old(runs[me].phase).Fetching?
              && AccountLogPage(answer, old(runs[me].phase).current.nextPage, PAGE_SIZE).Err? ==>
                failed && runs[me].phase.Leaving? && Stored(View()) == Stored(old(View()))
      ensures Undisturbed(others) ==> LeaseKept(old(View()), View(), me)
    {
      hide Valid, Apply, Honest, Query, PageOf, InsideWindow;
      ghost var first := View();
      ghost var quiet := Undisturbed(others) && At(first, me, pos, Fetching(pos, steps)) && pos.nextPage >= 1
                         && Answered(first, answer);
      if quiet {
        FetchProceeds(cfg, first, me, pos, steps, answer);
        PageInside(ledger, pos.window.value, pos.nextPage,
                   pos.nextPage * PAGE_SIZE >= |Query(ledger, pos.window.value)|);
      }
      if runs[me].phase.Fetching? { RefusedPageLeaves(cfg, first, me, answer); }
      Statement(others(pause + 1), Fetch(me, answer), me);
      failed := WriteAndCommit(me, others, pause, pos, steps);
    }

    /** The records of the page are written one by one, then the page is committed. */
    method WriteAndCommit(me: nat, others: nat -> seq<Step>, pause: nat, ghost pos: Position, ghost steps: nat)
      returns (failed: bool)
      requires Valid() && me in runs && me < nextOwner
      modifies this
      ensures Valid() && Forward(old(row), row) && me in runs && me < nextOwner
      ensures Undisturbed(others) && HasFetched(old(View()), me, pos, steps) ==>
                !failed && TurnsPage(old(View()), View(), me, pos, steps)
      ensures Undisturbed(others) && old(runs[me].phase).Leaving? ==> failed && View() == old(View())
      ensures Undisturbed(others) ==> LeaseKept(old(View()), View(), me)
    {
      hide Valid, Apply, InsideWindow, Query;
      ghost var quiet := Undisturbed(others) && HasFetched(View(), me, pos, steps);
      WriteReceipts(me, others, pause + 3);
      failed := true;
      if runs[me].phase.Ingesting? {
        if quiet { CommitProceeds(cfg, View(), me, pos, steps, runs[me].phase.page); }
        Interleave(others(pause + 2), me);
        failed := !MineAndLive(me);
        Statement([], Commit(me), me);
      }
    }

    method WriteReceipts(me: nat, others: nat -> seq<Step>, pause: nat)
      requires Valid() && me in runs && me < nextOwner
      modifies this
      ensures Valid() && Forward(old(row), row) && me in runs && me < nextOwner
      ensures RecordsLeft(runs[me].phase) <= 0
      ensures Undisturbed(others) && Writes(old(View()), me) ==> ReceiptsWritten(old(View()), View(), me)
      ensures RecordsLeft(old(runs[me].phase)) <= 0 ==> View() == old(View())
      ensures Undisturbed(others) ==> LeaseKept(old(View()), View(), me)
    {
      hide Valid, Apply, InsideWindow;
      ghost var first := View();
      ghost var quiet := Undisturbed(others) && Writes(first, me);
      ghost var phase := if quiet then runs[me].phase else Claimed;
      while RecordsLeft(runs[me].phase) > 0
        invariant Valid() && Forward(old(row), row) && me in runs && me < nextOwner
        invariant Undisturbed(others) ==> LeaseKept(first, View(), me)
        invariant RecordsLeft(old(runs[me].phase)) <= 0 ==> View() == first
        invariant quiet ==>
                    && Still(first, View(), me) && runs[me].phase.Ingesting?
                    && runs[me].phase.done <= |phase.page.records|
                            && At(View(), me, Stored(first), phase.(done := runs[me].phase.done))
        decreases RecordsLeft(runs[me].phase)
      {
        if quiet { IngestProceeds(cfg, View(), me, Stored(first), phase.steps, phase.page, runs[me].phase.done); }
        Statement(others(pause + RecordsLeft(runs[me].phase)), Ingest(me), me);
      }
    }

    predicate Mine(owner: nat)
      reads this
    {
      row.Some? && row.value.leaseOwner == Some(owner)
    }

    predicate MineAndLive(owner: nat)
      reads this
    {
      Mine(owner) && row.value.lockedUntil.Some? && row.value.lockedUntil.value > now
    }

    method SetPhase(owner: nat, phase: Phase)
      requires owner in runs
      modifies this`runs
      ensures View() == Enter(old(View()), owner, phase)
    {
      runs := runs[owner := runs[owner].(phase := phase)];
    }

    method ReadRow(owner: nat)
      requires owner in runs
      modifies this`runs
      ensures View() == AfterLoad(old(View()), owner)
    {
      if runs[owner].phase.Claimed? && row.Some? {
        var pos := row.value.pos;
        SetPhase(owner, if pos.window.Some? then Ready(pos, 0) else Loaded(pos));
      }
    }

    method SkipIdleHistory(owner: nat)
      requires owner in runs
      modifies this`runs, this`row
      ensures View() == AfterSkipIdle(old(View()), owner)
      ensures row != old(row) ==> old(Mine(owner)) && row.Some? && row.value.pos.cursorAt == runs[owner].demandFrom
    {
      var run := runs[owner];
      if run.phase.Loaded? && run.phase.current.cursorAt < run.demandFrom {
        if Mine(owner) {
          row := Some(row.value.(pos := row.value.pos.(cursorAt := run.demandFrom)));
        }
        SetPhase(owner, Loaded(run.phase.current.(cursorAt := run.demandFrom)));
      }
    }

    method PlanWindow(owner: nat)
      requires owner in runs
      modifies this`runs, this`row
      ensures View() == AfterPlan(cfg, old(View()), owner)
      ensures row != old(row) ==>
                && old(Mine(owner)) && row.Some? && row.value.pos.nextPage == 1 && row.value.pos.window.Some?
                && row.value.pos.window.value.end > old(runs[owner].phase).current.cursorAt
      ensures row != old(row) ==>
                var run := old(runs)[owner];
                && run.phase.Loaded?
                && row.value.pos.window.value.start == run.phase.current.cursorAt - 1000 * cfg.overlap
                && row.value.pos.window.value.end <= run.claimedAt - 1000 * cfg.lag
                && row.value.pos.window.value.end <= run.phase.current.cursorAt + 1_800_000
                && (row.value.pos.window.value.end == run.claimedAt - 1000 * cfg.lag
                    || row.value.pos.window.value.end == run.phase.current.cursorAt + 1_800_000)
    {
      var run := runs[owner];
      if run.phase.Loaded? && run.phase.current.cursorAt >= run.demandFrom {
        var window := CollectorWindow(run.phase.current.cursorAt, run.claimedAt, cfg.overlap, cfg.lag);
        if window.end <= run.phase.current.cursorAt {
          SetPhase(owner, Leaving);
        } else {
          if Mine(owner) {
            row := Some(row.value.(pos := row.value.pos.(window := Some(window), nextPage := 1)));
          }
          SetPhase(owner, Opened);
        }
      }
    }

    method RereadRow(owner: nat)
      requires owner in runs
      modifies this`runs
      ensures View() == AfterReload(old(View()), owner)
    {
      var phase := runs[owner].phase;
      if row.Some? {
        if phase.Opened? {
          SetPhase(owner, Ready(row.value.pos, 0));
        } else if phase.Committed? && phase.steps < MAX_PAGES_PER_RUN {
          SetPhase(owner, Ready(row.value.pos, phase.steps));
        }
      }
    }

    method RenewLease(owner: nat)
      requires owner in runs
      modifies this`runs, this`row
      ensures View() == AfterRenew(old(View()), owner)
      ensures if old(runs)[owner].phase.Ready? && old(row).Some? && old(row).value.leaseOwner == Some(owner)
                 && old(row).value.lockedUntil.Some? && old(row).value.lockedUntil.value > now
              then row == Some(old(row).value.(lockedUntil := Some(now + 60_000))) && runs[owner].phase.Fetching?
              else row == old(row) && (old(runs)[owner].phase.Ready? ==> runs[owner].phase.Leaving?)
    {
      var phase := runs[owner].phase;
      if phase.Ready? {
        if MineAndLive(owner) {
          row := Some(row.value.(lockedUntil := Some(now + LEASE)));
          SetPhase(owner, Fetching(phase.current, phase.steps));
        } else {
          SetPhase(owner, Leaving);
        }
      }
    }

    method FetchPage(owner: nat, response: Response)
      requires owner in runs
      modifies this`runs
      ensures View() == AfterFetch(old(View()), owner, response)
      ensures runs[owner].phase.Ingesting? && !old(runs[owner].phase.Ingesting?) ==>
                AccountLogPage(response, old(runs[owner].phase).current.nextPage, 100) == Ok(runs[owner].phase.page)
    {
      var phase := runs[owner].phase;
      if phase.Fetching? {
        var answer := AccountLogPage(response, phase.current.nextPage, PAGE_SIZE);
        if answer.Err? || phase.current.window.None? {
          SetPhase(owner, Leaving);
        } else if Honest(response, Query(ledger, phase.current.window.value), phase.current.nextPage, PAGE_SIZE) {
          SetPhase(owner, Ingesting(phase.current, phase.steps, answer.value, 0));
        }
      }
    }

    method IngestRecord(owner: nat)
      requires owner in runs
      modifies this`runs, this`receipts
      ensures View() == AfterIngest(old(View()), owner)
      ensures runs[owner].phase.Leaving? ==> receipts == old(receipts)
      ensures runs[owner].phase.Ingesting? && old(runs[owner].phase.Ingesting?)
              && runs[owner].phase.done > old(runs[owner].phase).done ==>
                var e := runs[owner].phase.page.records[old(runs[owner].phase).done];
                receipts == old(receipts) + if e.income then {e.tradeNo} else {}
    {
      var phase := runs[owner].phase;
      if phase.Ingesting? && phase.done < |phase.page.records| && phase.current.window.Some? {
        var e := phase.page.records[phase.done];
        var w := phase.current.window.value;
        if Refused(e, w) {
          SetPhase(owner, Leaving);
        } else {
          if e.income {
            receipts := receipts + {e.tradeNo};
          }
          SetPhase(owner, phase.(done := phase.done + 1));
        }
      }
    }

    method CommitPage(owner: nat)
      requires owner in runs
      modifies this`runs, this`row
      ensures View() == AfterCommit(old(View()), owner)
      ensures row != old(row) ==>
                && old(runs)[owner].phase.Ingesting? && old(runs)[owner].phase.current.window.Some?
                && var phase := old(runs)[owner].phase;
                   && old(row).Some? && old(row).value.leaseOwner == Some(owner)
                   && old(row).value.lockedUntil.Some? && old(row).value.lockedUntil.value > now
                   && phase.done >= |phase.page.records|
                   && row == Some(old(row).value.(pos := if phase.page.complete
                        then Position(phase.current.window.value.end, None, 1)
                        else old(row).value.pos.(nextPage := phase.current.nextPage + 1)))
    {
      var phase := runs[owner].phase;
      if phase.Ingesting? && phase.done >= |phase.page.records| && phase.current.window.Some? {
        if !MineAndLive(owner) {
          SetPhase(owner, Leaving);
        } else if phase.page.complete {
          row := Some(row.value.(pos := Position(phase.current.window.value.end, None, 1)));
          SetPhase(owner, Leaving);
        } else {
          row := Some(row.value.(pos := row.value.pos.(nextPage := phase.current.nextPage + 1)));
          SetPhase(owner, Committed(phase.steps + 1));
        }
      }
    }

    method RecordFailure(owner: nat, retryAt: int)
      requires owner in runs
      modifies this`runs, this`row
      ensures View() == AfterFail(old(View()), owner, retryAt)
      ensures row == if old(row).Some? && old(row).value.leaseOwner == Some(owner)
              then Some(old(row).value.(nextRunAt := retryAt)) else old(row)
    {
      if Mine(owner) {
        row := Some(row.value.(nextRunAt := retryAt));
      }
      SetPhase(owner, Leaving);
    }

    method ReleaseLease(owner: nat)
      requires owner in runs
      modifies this`runs, this`row
      ensures View() == AfterRelease(old(View()), owner)
      ensures if old(runs)[owner].phase.Leaving? && old(row).Some? && old(row).value.leaseOwner == Some(owner)
              then row == Some(old(row).value.(leaseOwner := None, lockedUntil := None)) else row == old(row)
    {
      if runs[owner].phase.Leaving? {
        if Mine(owner) {
          row := Some(row.value.(leaseOwner := None, lockedUntil := None));
        }
        SetPhase(owner, Pacing);
      }
    }

    method PaceNextRun(owner: nat, pollAt: int)
      requires owner in runs
      modifies this`runs, this`row
      ensures View() == AfterPace(old(View()), owner, pollAt)
      ensures row != old(row) ==>
                old(row).Some? && old(row).value.leaseOwner.None? && row.Some? && row.value.nextRunAt == pollAt
    {
      if runs[owner].phase.Pacing? {
        if row.Some? && row.value.leaseOwner.None? && row.value.nextRunAt <= runs[owner].claimedAt {
          row := Some(row.value.(nextRunAt := pollAt));
        }
        runs := runs - {owner};
      }
    }
  }
}
