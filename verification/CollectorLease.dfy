/** The stored position moves as if a single collector run were at work. */
module CollectorLease {
  import opened Wrappers
  import opened AccountLog
  import opened CollectorProtocol
  import opened CollectorCoverage

  // ---- What one undisturbed worker may do to the position ----------------------------------

  /** Jump over idle history, never past the start of a payment still in demand. */
  ghost predicate Skips(cfg: Settings, s: State, a: Position, b: Position) {
    && a.window.None?
    && a.cursorAt < b.cursorAt && b == a.(cursorAt := b.cursorAt)
    && forall no | no in s.demands && Demanded(cfg, s.now, s.demands[no]) :: b.cursorAt <= s.demands[no].validFrom
  }

  /** Open a window of at most thirty minutes that reaches past the cursor into the settled past. */
  ghost predicate Opens(cfg: Settings, s: State, a: Position, b: Position) {
    && a.window.None? && b.window.Some?
    && var w := b.window.value;
       && b == Position(a.cursorAt, Some(w), 1)
       && w.start == a.cursorAt - cfg.overlap * SECOND
       && a.cursorAt < w.end <= s.now - Lag(cfg)
       && w.end <= a.cursorAt + WINDOW_LENGTH
  }

  /** Turn to the next page, the current one being written and not the last. */
  ghost predicate Turns(s: State, a: Position, b: Position) {
    && a.window.Some?
    && var list := Query(s.ledger, a.window.value);
       && Written(list, a.nextPage * PAGE_SIZE, a.window.value, Seen(s))
       && a.nextPage * PAGE_SIZE < |list|
       && b == a.(nextPage := a.nextPage + 1)
  }

  /** Close the window, all of it being written. */
  ghost predicate Closes(s: State, a: Position, b: Position) {
    && a.window.Some?
    && var list := Query(s.ledger, a.window.value);
       && Written(list, |list|, a.window.value, Seen(s))
       && b == Position(a.window.value.end, None, 1)
  }

  ghost predicate SoloMove(cfg: Settings, s: State, a: Position, b: Position) {
    a == b || Skips(cfg, s, a, b) || Opens(cfg, s, a, b) || Turns(s, a, b) || Closes(s, a, b)
  }

  // ---- Every step of every run is such a move ----------------------------------------------

  /** A page commit that takes effect finds the stored window and page it fetched with. */
  lemma CommitFindsItsPage(cfg: Settings, s: State, owner: nat)
    requires Inv(cfg, s) && owner in s.runs
    requires s.row.Some? && AfterCommit(s, owner).row != s.row
    ensures s.runs[owner].phase.Ingesting? && s.row.value.pos == s.runs[owner].phase.current
    ensures Turns(s, s.row.value.pos, AfterCommit(s, owner).row.value.pos)
         || Closes(s, s.row.value.pos, AfterCommit(s, owner).row.value.pos)
  {
    assert RunOk(cfg, s, owner);
    PageWritten(cfg, s, owner);
  }

  lemma StepIsSoloMove(cfg: Settings, s: State, step: Step)
    requires Inv(cfg, s) && s.row.Some?
    ensures var t := Apply(cfg, s, step);
            t.row.Some? && SoloMove(cfg, s, s.row.value.pos, t.row.value.pos)
  {
    hide Inv, Covered;
    var t := Apply(cfg, s, step);
    if Actor(step).Some? && Actor(step).value in s.runs { RunIsOk(cfg, s, Actor(step).value); }
    match step
    case Commit(o) =>
      if o in s.runs && t.row != s.row {
        CommitFindsItsPage(cfg, s, o);
      }
    case _ =>
  }

  lemma {:induction false} RowStays(cfg: Settings, s: State, steps: seq<Step>)
    requires s.row.Some?
    ensures Replay(cfg, s, steps).row.Some?
  {
    if steps != [] {
      RowStays(cfg, s, steps[..|steps| - 1]);
    }
  }

  /** What one worker may do to the stored row: begin it at the earliest demand, or move its position. */
  ghost predicate RowMove(cfg: Settings, s: State, t: State) {
    if s.row.Some? then t.row.Some? && SoloMove(cfg, s, s.row.value.pos, t.row.value.pos)
    else t.row.Some? ==>
           EarliestDemand(cfg, s, t.row.value.pos.cursorAt)
             && t.row.value.pos == Position(t.row.value.pos.cursorAt, None, 1)
  }

  /** A sequence of positions that one worker could have stored, each move justified in the state it was made in. */
  ghost predicate SoloHistory(cfg: Settings, states: seq<State>) {
    forall i | 0 <= i < |states| - 1 :: RowMove(cfg, states[i], states[i + 1])
  }

  ghost function History(cfg: Settings, s: State, steps: seq<Step>): (states: seq<State>)
    ensures |states| == |steps| + 1
    ensures forall i | 0 <= i <= |steps| :: states[i] == Replay(cfg, s, steps[..i])
  {
    if steps == [] then [s]
    else
      var front := steps[..|steps| - 1];
      assert forall i | 0 <= i <= |front| :: front[..i] == steps[..i];
      assert steps[..|steps|] == steps;
      History(cfg, s, front) + [Replay(cfg, s, steps)]
  }

  /**
   Lease refinement: whatever the interleaving, the stored positions form a history of a single worker, begun at the
   earliest demand.
   */
  lemma LeaseRefinesSolo(cfg: Settings, s: State, steps: seq<Step>)
    requires Initial(s)
    ensures SoloHistory(cfg, History(cfg, s, steps))
  {
    hide Inv, Apply, SoloMove, EarliestDemand;
    var states := History(cfg, s, steps);
    InitialInv(cfg, s);
    forall i | 0 <= i < |states| - 1 ensures RowMove(cfg, states[i], states[i + 1]) {
      ReplayKeeps(cfg, s, steps[..i]);
      assert steps[..i + 1][..i] == steps[..i];
      if states[i].row.Some? {
        StepIsSoloMove(cfg, states[i], steps[i]);
      } else if states[i + 1].row.Some? {
        StepCreatesRow(cfg, states[i], steps[i]);
      }
    }
  }

  lemma {:induction false} ReplayAppend(cfg: Settings, s: State, first: seq<Step>, later: seq<Step>)
    ensures Replay(cfg, s, first + later) == Replay(cfg, Replay(cfg, s, first), later)
  {
    if later == [] {
      assert first + later == first;
    } else {
      assert (first + later)[..|first + later| - 1] == first + later[..|later| - 1];
      ReplayAppend(cfg, s, first, later[..|later| - 1]);
    }
  }

  /** The cursor never moves back. */
  lemma {:induction false} CursorNeverDecreases(cfg: Settings, s: State, steps: seq<Step>)
    requires Inv(cfg, s) && s.row.Some?
    ensures Replay(cfg, s, steps).row.Some?
    ensures s.row.value.pos.cursorAt <= Replay(cfg, s, steps).row.value.pos.cursorAt
  {
    if steps != [] {
      var front := steps[..|steps| - 1];
      CursorNeverDecreases(cfg, s, front);
      ReplayKeeps(cfg, s, front);
      StepIsSoloMove(cfg, Replay(cfg, s, front), steps[|steps| - 1]);
    }
  }

  /** In every reachable state an open window straddles the cursor and its earlier pages are written. */
  lemma OpenWindowSound(cfg: Settings, s: State, steps: seq<Step>)
    requires Initial(s)
    ensures var t := Replay(cfg, s, steps);
            t.row.Some? && t.row.value.pos.window.Some? ==>
              var pos := t.row.value.pos;
              && pos.window.value.start <= pos.cursorAt < pos.window.value.end
              && Written(Query(t.ledger, pos.window.value), (pos.nextPage - 1) * PAGE_SIZE, pos.window.value, Seen(t))
  {
    InitialInv(cfg, s);
    ReplayKeeps(cfg, s, steps);
  }

  /** The row starts at the earliest demand of the claim that wrote it. */
  lemma StepCreatesRow(cfg: Settings, s: State, step: Step)
    requires Inv(cfg, s) && s.row.None? && Apply(cfg, s, step).row.Some?
    ensures step.Claim? && EarliestDemand(cfg, s, step.demandFrom)
    ensures Apply(cfg, s, step).row.value.pos == Position(step.demandFrom, None, 1)
  {
    RunsNeedRow(cfg, s);
  }

  lemma RunsNeedRow(cfg: Settings, s: State)
    requires Inv(cfg, s)
    ensures s.runs != map[] ==> s.row.Some?
  {
    if s.runs != map[] {
      var o :| o in s.runs;
      assert RunOk(cfg, s, o);
    }
  }
}
