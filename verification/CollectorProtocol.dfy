/**
 The bill collector of one account as a state machine. A state holds the stored collector row, the
 receipts already written, the payments that still want receipts, the gateway's ledger and the local
 memory of every collector run in flight. Each step is one database statement or one gateway answer,
 so a sequence of steps is any interleaving of runs, clock ticks, crashes and other services.
 */
module CollectorProtocol {
  import opened Wrappers
  import opened AccountLog

  const LEASE := 60 * SECOND
  const MAX_PAGES_PER_RUN := 5

  /** Both in seconds. */
  datatype Settings = Settings(overlap: nat, lag: nat)

  /** What the collector needs to know of a bill payment. */
  datatype Demand = Demand(validFrom: int, validUntil: int, paid: bool)

  datatype Position = Position(cursorAt: int, window: Option<Window>, nextPage: nat)

  datatype Row = Row(pos: Position, leaseOwner: Option<nat>, lockedUntil: Option<int>, nextRunAt: int)

  /** Where a run stands between two of its statements, with the row it last read. */
  datatype Phase =
    | Claimed
    | Loaded(current: Position)
    | Opened
    | Ready(current: Position, steps: nat)
    | Fetching(current: Position, steps: nat)
    | Ingesting(current: Position, steps: nat, page: Page, done: nat)
    | Committed(steps: nat)
    | Leaving
    | Pacing

  datatype Run = Run(claimedAt: int, demandFrom: int, phase: Phase)

  datatype State = State(
    now: int,
    ledger: seq<Entry>,
    receipts: set<string>,
    erased: set<string>,
    demands: map<string, Demand>,
    row: Option<Row>,
    runs: map<nat, Run>,
    nextOwner: nat)

  /** Whether the collector still collects for a payment; the bounded tail covers late ledger lines. */
  predicate Demanded(cfg: Settings, now: int, d: Demand) {
    && !d.paid
    && d.validFrom <= now
    && d.validUntil >= now - Tail(cfg)
  }

  function Tail(cfg: Settings): int {
    (if cfg.overlap + cfg.lag < 300 then 300 else cfg.overlap + cfg.lag) * SECOND
  }

  function Lag(cfg: Settings): int {
    cfg.lag * SECOND
  }

  /** Trade numbers whose receipt row was written, erased ones included. */
  function Seen(s: State): set<string> {
    s.receipts + s.erased
  }

  /** `from` is the earliest start among the demanded payments. */
  predicate EarliestDemand(cfg: Settings, s: State, from: int) {
    && (exists no | no in s.demands :: Demanded(cfg, s.now, s.demands[no]) && s.demands[no].validFrom == from)
    && (forall no | no in s.demands && Demanded(cfg, s.now, s.demands[no]) :: from <= s.demands[no].validFrom)
  }

  datatype Step =
    // The world
    | Tick(milliseconds: nat)
    | LedgerLine(entry: Entry)
    | NewPayment(no: string, validUntil: int)
    | Paid(no: string)
    | Dropped(no: string)
    | Wake
    | Erase(tradeNo: string)
    // A collector run, named by its lease owner
    | Claim(demandFrom: int)
    | Load(owner: nat)
    | SkipIdle(owner: nat)
    | Plan(owner: nat)
    | Reload(owner: nat)
    | Renew(owner: nat)
    | Fetch(owner: nat, response: Response)
    | Ingest(owner: nat)
    | Commit(owner: nat)
    | Stop(owner: nat)
    | Fail(owner: nat, retryAt: int)
    | Release(owner: nat)
    | Pace(owner: nat, pollAt: int)
    | Crash(owner: nat)

  // ---- Writes guarded by the lease owner --------------------------------------------------

  predicate Owns(s: State, owner: nat) {
    s.row.Some? && s.row.value.leaseOwner == Some(owner)
  }

  predicate HoldsLiveLease(s: State, owner: nat) {
    Owns(s, owner) && s.row.value.lockedUntil.Some? && s.row.value.lockedUntil.value > s.now
  }

  function Enter(s: State, owner: nat, phase: Phase): State
    requires owner in s.runs
  {
    s.(runs := s.runs[owner := s.runs[owner].(phase := phase)])
  }

  // ---- Steps of the world ------------------------------------------------------------------

  /** A ledger line becomes visible no later than the lag after its own time. */
  function AfterLedgerLine(cfg: Settings, s: State, e: Entry): State {
    if e.time >= s.now - Lag(cfg) then s.(ledger := s.ledger + [e]) else s
  }

  /** A new bill payment is recognised from the moment it is written. */
  function AfterNewPayment(s: State, no: string, validUntil: int): State {
    if no in s.demands || validUntil <= s.now then s
    else s.(demands := s.demands[no := Demand(s.now, validUntil, false)])
  }

  function AfterPaid(s: State, no: string): State {
    if no in s.demands then s.(demands := s.demands[no := s.demands[no].(paid := true)]) else s
  }

  function AfterWake(s: State): State {
    if s.row.Some? then s.(row := Some(s.row.value.(nextRunAt := s.now))) else s
  }

  /** Archiving an application deletes the receipts of its payments. */
  function AfterErase(s: State, tradeNo: string): State {
    if tradeNo in s.receipts then s.(receipts := s.receipts - {tradeNo}, erased := s.erased + {tradeNo}) else s
  }

  // ---- Steps of a run ----------------------------------------------------------------------

  /** The claim transaction: the row is created at the first demand and leased when it is free and due. */
  function AfterClaim(cfg: Settings, s: State, demandFrom: int): State {
    if !EarliestDemand(cfg, s, demandFrom) then s
    else
      var row := if s.row.Some? then s.row.value
                 else Row(Position(demandFrom, None, 1), None, None, s.now);
      if row.nextRunAt > s.now || (row.lockedUntil.Some? && row.lockedUntil.value > s.now)
      then s.(row := Some(row))
      else s.(row := Some(row.(leaseOwner := Some(s.nextOwner), lockedUntil := Some(s.now + LEASE))),
              runs := s.runs[s.nextOwner := Run(s.now, demandFrom, Claimed)],
              nextOwner := s.nextOwner + 1)
  }

  function AfterLoad(s: State, owner: nat): State
    requires owner in s.runs
  {
    if s.runs[owner].phase.Claimed? && s.row.Some? then
      var pos := s.row.value.pos;
      Enter(s, owner, if pos.window.Some? then Ready(pos, 0) else Loaded(pos))
    else s
  }

  function AfterSkipIdle(s: State, owner: nat): State
    requires owner in s.runs
  {
    var run := s.runs[owner];
    if run.phase.Loaded? && run.phase.current.cursorAt < run.demandFrom then
      var pos := run.phase.current.(cursorAt := run.demandFrom);
      var written := if Owns(s, owner)
                     then s.(row := Some(s.row.value.(pos := s.row.value.pos.(cursorAt := run.demandFrom)))) else s;
      Enter(written, owner, Loaded(pos))
    else s
  }

  function AfterPlan(cfg: Settings, s: State, owner: nat): State
    requires owner in s.runs
  {
    var run := s.runs[owner];
    if run.phase.Loaded? && run.phase.current.cursorAt >= run.demandFrom then
      var window := CollectorWindow(run.phase.current.cursorAt, run.claimedAt, cfg.overlap, cfg.lag);
      if window.end <= run.phase.current.cursorAt then Enter(s, owner, Leaving)
      else
        var written := if Owns(s, owner)
                       then s.(row := Some(s.row.value.(pos := s.row.value.pos.(window := Some(window),
                                nextPage := 1)))) else s;
        Enter(written, owner, Opened)
    else s
  }

  function AfterReload(s: State, owner: nat): State
    requires owner in s.runs
  {
    var phase := s.runs[owner].phase;
    if s.row.None? then s
    else if phase.Opened? then Enter(s, owner, Ready(s.row.value.pos, 0))
    else if phase.Committed? && phase.steps < MAX_PAGES_PER_RUN
         then Enter(s, owner, Ready(s.row.value.pos, phase.steps))
    else s
  }

  function AfterRenew(s: State, owner: nat): State
    requires owner in s.runs
  {
    var phase := s.runs[owner].phase;
    if !phase.Ready? then s
    else if HoldsLiveLease(s, owner) then
      Enter(s.(row := Some(s.row.value.(lockedUntil := Some(s.now + LEASE)))), owner,
            Fetching(phase.current, phase.steps))
    else Enter(s, owner, Leaving)
  }

  /** The gateway answers truthfully for the window, or its answer is refused and the run fails. */
  function AfterFetch(s: State, owner: nat, response: Response): State
    requires owner in s.runs
  {
    var phase := s.runs[owner].phase;
    if !phase.Fetching? then s
    else
      var answer := AccountLogPage(response, phase.current.nextPage, PAGE_SIZE);
      if answer.Err? || phase.current.window.None? then Enter(s, owner, Leaving)
      else if Honest(response, Query(s.ledger, phase.current.window.value), phase.current.nextPage, PAGE_SIZE)
      then Enter(s, owner, Ingesting(phase.current, phase.steps, answer.value, 0))
      else s
  }

  /** One record of the page: income lines get a receipt row, a line outside the window stops the run. */
  function AfterIngest(s: State, owner: nat): State
    requires owner in s.runs
  {
    var phase := s.runs[owner].phase;
    if phase.Ingesting? && phase.done < |phase.page.records| && phase.current.window.Some? then
      var e := phase.page.records[phase.done];
      var w := phase.current.window.value;
      if Refused(e, w) then Enter(s, owner, Leaving)
      else
        var written := if e.income then s.(receipts := s.receipts + {e.tradeNo}) else s;
        Enter(written, owner, phase.(done := phase.done + 1))
    else s
  }

  function AfterCommit(s: State, owner: nat): State
    requires owner in s.runs
  {
    var phase := s.runs[owner].phase;
    if phase.Ingesting? && phase.done >= |phase.page.records| && phase.current.window.Some? then
      if !HoldsLiveLease(s, owner) then Enter(s, owner, Leaving)
      else
        var pos := s.row.value.pos;
        var next := if phase.page.complete
                    then Position(phase.current.window.value.end, None, 1)
                    else pos.(nextPage := phase.current.nextPage + 1);
        Enter(s.(row := Some(s.row.value.(pos := next))), owner, if phase.page.complete then Leaving
              else Committed(phase.steps + 1))
    else s
  }

  function AfterFail(s: State, owner: nat, retryAt: int): State
    requires owner in s.runs
  {
    var written := if Owns(s, owner) then s.(row := Some(s.row.value.(nextRunAt := retryAt))) else s;
    Enter(written, owner, Leaving)
  }

  function AfterRelease(s: State, owner: nat): State
    requires owner in s.runs
  {
    if !s.runs[owner].phase.Leaving? then s
    else
      var freed := if Owns(s, owner) then s.(row := Some(s.row.value.(leaseOwner := None, lockedUntil := None))) else s;
      Enter(freed, owner, Pacing)
  }

  /** The last write sets the next time, unless somebody holds the lease by now or the time is set already. */
  function AfterPace(s: State, owner: nat, pollAt: int): State
    requires owner in s.runs
  {
    if !s.runs[owner].phase.Pacing? then s
    else
      var paced := if s.row.Some? && s.row.value.leaseOwner.None? && s.row.value.nextRunAt <= s.runs[owner].claimedAt
                   then s.(row := Some(s.row.value.(nextRunAt := pollAt))) else s;
      paced.(runs := paced.runs - {owner})
  }

  /** The run a step belongs to, when it is a step of a run already claimed. */
  function Actor(step: Step): Option<nat> {
    match step
    case Load(o) => Some(o)
    case SkipIdle(o) => Some(o)
    case Plan(o) => Some(o)
    case Reload(o) => Some(o)
    case Renew(o) => Some(o)
    case Fetch(o, _) => Some(o)
    case Ingest(o) => Some(o)
    case Commit(o) => Some(o)
    case Stop(o) => Some(o)
    case Fail(o, _) => Some(o)
    case Release(o) => Some(o)
    case Pace(o, _) => Some(o)
    case Crash(o) => Some(o)
    case _ => None
  }

  /** A step that cannot happen in a state leaves the state as it is. */
  function Apply(cfg: Settings, s: State, step: Step): State {
    if Actor(step).Some? && Actor(step).value !in s.runs then s
    else
      match step
      case Tick(d) => s.(now := s.now + d)
      case LedgerLine(e) => AfterLedgerLine(cfg, s, e)
      case NewPayment(no, validUntil) => AfterNewPayment(s, no, validUntil)
      case Paid(no) => AfterPaid(s, no)
      case Dropped(no) => s.(demands := s.demands - {no})
      case Wake => AfterWake(s)
      case Erase(tradeNo) => AfterErase(s, tradeNo)
      case Claim(demandFrom) => AfterClaim(cfg, s, demandFrom)
      case Load(o) => AfterLoad(s, o)
      case SkipIdle(o) => AfterSkipIdle(s, o)
      case Plan(o) => AfterPlan(cfg, s, o)
      case Reload(o) => AfterReload(s, o)
      case Renew(o) => AfterRenew(s, o)
      case Fetch(o, response) => AfterFetch(s, o, response)
      case Ingest(o) => AfterIngest(s, o)
      case Commit(o) => AfterCommit(s, o)
      case Stop(o) => Enter(s, o, Leaving)
      case Fail(o, retryAt) => AfterFail(s, o, retryAt)
      case Release(o) => AfterRelease(s, o)
      case Pace(o, pollAt) => AfterPace(s, o, pollAt)
      case Crash(o) => s.(runs := s.runs - {o})
  }

  function Replay(cfg: Settings, s: State, steps: seq<Step>): State {
    if steps == [] then s
    else Apply(cfg, Replay(cfg, s, steps[..|steps| - 1]), steps[|steps| - 1])
  }

  /** Before the first claim: no row, no run, and no payment recognised from the future. */
  ghost predicate Initial(s: State) {
    && s.row.None?
    && s.runs == map[]
    && forall no | no in s.demands :: s.demands[no].validFrom <= s.now
  }
}
