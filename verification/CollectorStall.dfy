/**
 When the collector stops for good. A window keeps the milliseconds of its bounds while the query names them to the
 second, so the query may return a line from just before the window, and the check on that line fails the run.
 */
module CollectorStall {
  import opened Wrappers
  import opened AccountLog
  import opened CollectorProtocol
  import opened CollectorCoverage
  import opened CollectorLease

  /** The open window's query returns an income line that the check refuses. */
  ghost predicate Blocked(s: State) {
    s.row.Some? && s.row.value.pos.window.Some? && !Clear(s.ledger, s.row.value.pos.window.value)
  }

  /** A window blocks exactly when an income line falls into the part of a second that is cut off its start. */
  lemma BlockedExactly(s: State, w: Window)
    requires s.row.Some? && s.row.value.pos.window == Some(w)
    ensures Blocked(s) <==>
            exists e :: e in s.ledger && e.income && ToSecond(w.start) <= e.time < w.start && e.time < ToSecond(w.end)
  {
    if Blocked(s) {
      var e :| e in Query(s.ledger, w) && Refused(e, w);
      RefusedExactly(s.ledger, w, e);
      QueryMembers(s.ledger, w, e);
    }
    if e :| e in s.ledger && e.income && ToSecond(w.start) <= e.time < w.start && e.time < ToSecond(w.end) {
      QueryMembers(s.ledger, w, e);
    }
  }

  /** The lease owner fails on a record exactly when it is an income line from before the window. */
  lemma OwnerFailsExactly(cfg: Settings, s: State, owner: nat)
    requires Inv(cfg, s) && owner in s.runs && Owns(s, owner)
    requires s.runs[owner].phase.Ingesting? && s.runs[owner].phase.done < |s.runs[owner].phase.page.records|
    ensures var phase := s.runs[owner].phase;
            && phase.current.window.Some?
            && var e, w := phase.page.records[phase.done], phase.current.window.value;
               AfterIngest(s, owner).runs[owner].phase
               == if e.income && ToSecond(w.start) <= e.time < w.start then Leaving else phase.(done := phase.done + 1)
  {
    hide Inv;
    RunIsOk(cfg, s, owner);
    var phase := s.runs[owner].phase;
    var list := Query(s.ledger, phase.current.window.value);
    var start := Min((phase.current.nextPage - 1) * PAGE_SIZE, |list|);
    assert phase.page.records[phase.done] == list[start + phase.done];
    RefusedExactly(s.ledger, phase.current.window.value, phase.page.records[phase.done]);
  }

  lemma LedgerGrows(cfg: Settings, s: State, step: Step, e: Entry)
    requires e in s.ledger
    ensures e in Apply(cfg, s, step).ledger
  {
  }

  /** A window that is not clear is not closed by any one worker's move. */
  lemma NotClosed(cfg: Settings, s: State, a: Position, b: Position)
    requires a.window.Some? && !Clear(s.ledger, a.window.value) && SoloMove(cfg, s, a, b)
    ensures b.window == a.window && b.cursorAt == a.cursorAt
  {
    hide Query, Refused;
  }

  /** No line leaves the ledger, so a window that is not clear does not become so. */
  lemma StaysUnclear(cfg: Settings, s: State, step: Step, w: Window)
    requires !Clear(s.ledger, w)
    ensures !Clear(Apply(cfg, s, step).ledger, w)
  {
    hide Query, Refused, Apply;
    var e :| e in Query(s.ledger, w) && Refused(e, w);
    QueryMembers(s.ledger, w, e);
    LedgerGrows(cfg, s, step, e);
    QueryMembers(Apply(cfg, s, step).ledger, w, e);
  }

  /** No step closes a blocked window. */
  lemma StepStaysBlocked(cfg: Settings, s: State, step: Step)
    requires Inv(cfg, s) && Blocked(s)
    ensures var t := Apply(cfg, s, step);
            && Blocked(t) && t.row.value.pos.window == s.row.value.pos.window
            && t.row.value.pos.cursorAt == s.row.value.pos.cursorAt
  {
    hide Inv, Apply, Clear, SoloMove;
    StepIsSoloMove(cfg, s, step);
    NotClosed(cfg, s, s.row.value.pos, Apply(cfg, s, step).row.value.pos);
    StaysUnclear(cfg, s, step, s.row.value.pos.window.value);
  }

  /**
   Once blocked, the collector is blocked for good: whatever happens, its window stays open and its cursor stays put.
   */
  lemma {:induction false} BlockedForever(cfg: Settings, s: State, steps: seq<Step>)
    requires Inv(cfg, s) && Blocked(s)
    ensures var t := Replay(cfg, s, steps);
            Blocked(t) && t.row.value.pos.window == s.row.value.pos.window
              && t.row.value.pos.cursorAt == s.row.value.pos.cursorAt
  {
    hide Inv, Blocked, Apply;
    if steps != [] {
      var front := steps[..|steps| - 1];
      BlockedForever(cfg, s, front);
      ReplayKeeps(cfg, s, front);
      StepStaysBlocked(cfg, Replay(cfg, s, front), steps[|steps| - 1]);
    }
  }

  /** Windows that start on whole seconds never block. */
  lemma WholeSecondsNeverBlock(s: State)
    requires s.row.Some? && s.row.value.pos.window.Some? && s.row.value.pos.window.value.start % SECOND == 0
    ensures !Blocked(s)
  {
    var w := s.row.value.pos.window.value;
    forall e | e in Query(s.ledger, w) ensures !Refused(e, w) {
      WholeSecondRefusesNothing(s.ledger, w, e);
    }
  }

  // ---- It happens --------------------------------------------------------------------------

  /** The settings the service starts with. */
  const PLAIN := Settings(300, 15)

  const EARLIER := Entry("earlier", 10_000, true)

  /**
   A customer pays at ten seconds sharp; five minutes and half a second later a payment is created and collected for.
   */
  const STALLING: seq<Step> := [
    LedgerLine(EARLIER), Tick(300_500), NewPayment("p", 900_000), Tick(60_000), Claim(310_500), Load(0), Plan(0)
  ]

  function Start(): State {
    State(10_000, [], {}, {}, map[], None, map[], 0)
  }

  lemma ReplaySeven(cfg: Settings, s: State, steps: seq<Step>)
    requires |steps| == 7
    ensures Replay(cfg, s, steps) == Apply(cfg, Apply(cfg, Apply(cfg, Apply(cfg, Apply(cfg, Apply(cfg, Apply(cfg, s,
              steps[0]), steps[1]), steps[2]), steps[3]), steps[4]), steps[5]), steps[6])
  {
    hide Apply;
    assert steps[..6][..5] == steps[..5] && steps[..5][..4] == steps[..4] && steps[..4][..3] == steps[..3];
    assert steps[..3][..2] == steps[..2] && steps[..2][..1] == steps[..1] && steps[..1][..0] == [];
    assert Replay(cfg, s, steps[..1]) == Apply(cfg, s, steps[0]);
    assert Replay(cfg, s, steps[..2]) == Apply(cfg, Replay(cfg, s, steps[..1]), steps[1]);
    assert Replay(cfg, s, steps[..3]) == Apply(cfg, Replay(cfg, s, steps[..2]), steps[2]);
    assert Replay(cfg, s, steps[..4]) == Apply(cfg, Replay(cfg, s, steps[..3]), steps[3]);
    assert Replay(cfg, s, steps[..5]) == Apply(cfg, Replay(cfg, s, steps[..4]), steps[4]);
    assert Replay(cfg, s, steps[..6]) == Apply(cfg, Replay(cfg, s, steps[..5]), steps[5]);
  }

  /** The state in which the first claim is made. */
  function Collecting(): State {
    State(310_500, [EARLIER], {}, {}, map["p" := Demand(310_500, 900_000, false)], None, map[], 0)
  }

  lemma UpToTheClaim()
    ensures Apply(PLAIN, Apply(PLAIN, Apply(PLAIN, Start(), STALLING[0]), STALLING[1]), STALLING[2]) == Collecting()
  {
  }

  lemma PlanIsBlocked()
    ensures var t := Apply(PLAIN,
                           Apply(PLAIN, Apply(PLAIN, Apply(PLAIN, Collecting(), STALLING[3]), STALLING[4]),
                                 STALLING[5]),
                           STALLING[6]);
            && t.row.Some? && t.row.value.pos == Position(310_500, Some(Window(10_500, 355_500)), 1)
            && t.ledger == [EARLIER]
  {
    var s4 := Apply(PLAIN, Collecting(), STALLING[3]);
    assert EarliestDemand(PLAIN, s4, 310_500) by { assert "p" in s4.demands; }
    var s5 := Apply(PLAIN, s4, STALLING[4]);
    assert s5.runs == map[0 := Run(370_500, 310_500, Claimed)] && s5.row.Some?
           && s5.row.value.pos == Position(310_500, None, 1);
    assert Owns(s5, 0);
  }

  /** From the start of this history on the collector never gets past its first window. */
  lemma Stalls(later: seq<Step>)
    ensures Initial(Start())
    ensures var t := Replay(PLAIN, Start(), STALLING + later);
            Blocked(t) && t.row.value.pos.window == Some(Window(10_500, 355_500)) && t.row.value.pos.cursorAt == 310_500
  {
    hide Inv, Apply, Replay;
    UpToTheClaim();
    PlanIsBlocked();
    ReplaySeven(PLAIN, Start(), STALLING);
    var stalled := Replay(PLAIN, Start(), STALLING);
    assert EARLIER in stalled.ledger;
    BlockedExactly(stalled, Window(10_500, 355_500));
    InitialInv(PLAIN, Start());
    ReplayKeeps(PLAIN, Start(), STALLING);
    BlockedForever(PLAIN, stalled, later);
    ReplayAppend(PLAIN, Start(), STALLING, later);
  }
}
