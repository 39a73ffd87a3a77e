/** When the next run of the collector may start: a backoff stands until it is over. */
module CollectorPacing {
  import opened Wrappers
  import opened AccountLog
  import opened CollectorProtocol
  import opened CollectorCoverage

  /** Time, the claim and the next start are as they were, and the run still owns the lease if it did. */
  predicate LeaseKept(s: State, t: State, me: nat) {
    me in s.runs && Owns(s, me) ==>
      && me in t.runs && Owns(t, me) && t.now == s.now && t.runs[me].claimedAt == s.runs[me].claimedAt
      && t.row.value.nextRunAt == s.row.value.nextRunAt
  }

  lemma KeptFirst(s: State, me: nat)
    ensures LeaseKept(s, s, me)
  {
  }

  lemma KeptOn(s: State, t: State, u: State, me: nat)
    ensures LeaseKept(s, t, me) && LeaseKept(t, u, me) ==> LeaseKept(s, u, me)
  {
  }

  /** A run keeps its lease and the next start until it fails, releases or ends. */
  lemma OwnStepKeeps(cfg: Settings, s: State, step: Step, me: nat)
    requires Actor(step) == Some(me) && !step.Fail? && !step.Release? && !step.Pace? && !step.Crash?
    ensures LeaseKept(s, Apply(cfg, s, step), me)
  {
    hide CollectorWindow, AccountLogPage, Honest, Query, Refused;
  }

  /** The next start that is stored, if a row is. */
  function NextStart(s: State): Option<int> {
    if s.row.Some? then Some(s.row.value.nextRunAt) else None
  }

  /**
   A run that ends writes the next start only where the one stored is not behind its claim, and nobody holds the
   lease.
   */
  lemma PaceWrites(cfg: Settings, s: State, me: nat, pollAt: int)
    requires me in s.runs && s.runs[me].phase.Pacing? && s.row.Some?
    ensures NextStart(Apply(cfg, s, Pace(me, pollAt)))
            == Some(if s.row.value.leaseOwner == None && s.row.value.nextRunAt <= s.runs[me].claimedAt then pollAt
                    else s.row.value.nextRunAt)
  {
  }

  lemma FailWrites(cfg: Settings, s: State, me: nat, retryAt: int)
    requires me in s.runs && Owns(s, me)
    ensures var t := Apply(cfg, s, Fail(me, retryAt));
            && NextStart(t) == Some(retryAt) && Owns(t, me) && t.now == s.now
            && me in t.runs && t.runs[me].phase.Leaving? && t.runs[me].claimedAt == s.runs[me].claimedAt
  {
  }

  lemma ReleaseFrees(cfg: Settings, s: State, me: nat)
    requires me in s.runs && Owns(s, me) && s.runs[me].phase.Leaving?
    ensures var t := Apply(cfg, s, Release(me));
            && t.row.Some? && t.row.value.leaseOwner == None && NextStart(t) == NextStart(s) && t.now == s.now
            && me in t.runs && t.runs[me].claimedAt == s.runs[me].claimedAt
  {
  }

  /** A page that fails the checks ends the run, with nothing written. */
  lemma RefusedPageLeaves(cfg: Settings, s: State, me: nat, response: Response)
    requires me in s.runs && s.runs[me].phase.Fetching?
    ensures AccountLogPage(response, s.runs[me].phase.current.nextPage, PAGE_SIZE).Err? ==>
              Apply(cfg, s, Fetch(me, response)) == Enter(s, me, Leaving)
  {
    hide AccountLogPage;
  }

  /** No step but a wake, a failure or the end of a run changes the stored next start. */
  lemma StartChanges(cfg: Settings, s: State, step: Step)
    requires s.row.Some? && !step.Wake? && !step.Fail? && !step.Pace?
    ensures NextStart(Apply(cfg, s, step)) == NextStart(s)
  {
    hide CollectorWindow, AccountLogPage, Honest, Query, Refused, EarliestDemand;
  }

  /** Every run was claimed in the past. */
  ghost predicate ClaimsPast(s: State) {
    s.row.Some? && forall o | o in s.runs :: s.runs[o].claimedAt <= s.now
  }

  /** Before its time a next start stands, and nobody claims a run. */
  lemma StepWaits(cfg: Settings, s: State, step: Step)
    requires ClaimsPast(s) && s.now < s.row.value.nextRunAt && !step.Wake? && !step.Fail?
    ensures var t := Apply(cfg, s, step);
            ClaimsPast(t) && NextStart(t) == NextStart(s) && t.nextOwner == s.nextOwner && t.now >= s.now
  {
    hide CollectorWindow, AccountLogPage, Honest, Query, Refused, EarliestDemand;
  }

  lemma {:induction false} ClockGoesOn(cfg: Settings, s: State, steps: seq<Step>)
    ensures Replay(cfg, s, steps).now >= s.now
  {
    hide Apply;
    if steps != [] {
      ClockGoesOn(cfg, s, steps[..|steps| - 1]);
      StepGoesOn(cfg, Replay(cfg, s, steps[..|steps| - 1]), steps[|steps| - 1]);
    }
  }

  lemma StepGoesOn(cfg: Settings, s: State, step: Step)
    ensures Apply(cfg, s, step).now >= s.now
  {
    hide CollectorWindow, AccountLogPage, Honest, Query, Refused, EarliestDemand;
  }

  lemma {:induction false} WaitsOn(cfg: Settings, s: State, steps: seq<Step>)
    requires ClaimsPast(s) && Replay(cfg, s, steps).now < s.row.value.nextRunAt
    requires forall i | 0 <= i < |steps| :: !steps[i].Wake? && !steps[i].Fail?
    ensures var t := Replay(cfg, s, steps);
            ClaimsPast(t) && NextStart(t) == NextStart(s) && t.nextOwner == s.nextOwner
  {
    hide Apply;
    if steps != [] {
      var front := steps[..|steps| - 1];
      StepGoesOn(cfg, Replay(cfg, s, front), steps[|steps| - 1]);
      WaitsOn(cfg, s, front);
      StepWaits(cfg, Replay(cfg, s, front), steps[|steps| - 1]);
    }
  }

  /**
   A backoff stands: whatever runs still in flight do, until its time, unless somebody is woken or fails, the next
   start stays where it is and no run is claimed.
   */
  lemma BackoffStands(cfg: Settings, s: State, steps: seq<Step>)
    requires Inv(cfg, s) && s.row.Some? && Replay(cfg, s, steps).now < s.row.value.nextRunAt
    requires forall i | 0 <= i < |steps| :: !steps[i].Wake? && !steps[i].Fail?
    ensures NextStart(Replay(cfg, s, steps)) == NextStart(s) && Replay(cfg, s, steps).nextOwner == s.nextOwner
  {
    hide Apply, Replay;
    forall o | o in s.runs ensures s.runs[o].claimedAt <= s.now { assert RunOk(cfg, s, o); }
    WaitsOn(cfg, s, steps);
  }

  // ---- What is collected for ---------------------------------------------------------------

  /** The payment is unpaid and has asked for lines since `from`, at most five minutes or overlap and lag ago. */
  predicate AsksFor(cfg: Settings, now: int, d: Demand, from: int) {
    && !d.paid && d.validFrom == from <= now
    && (now <= d.validUntil + 300_000 || now <= d.validUntil + 1000 * (cfg.overlap + cfg.lag))
  }

  lemma DemandAsks(cfg: Settings, now: int, d: Demand)
    ensures Demanded(cfg, now, d) <==> AsksFor(cfg, now, d, d.validFrom)
    ensures forall at :: AsksFor(cfg, now, d, at) ==> at == d.validFrom
  {
  }
}
