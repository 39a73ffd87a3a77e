/** Tasks that tell the owner about events: what each statement of the notifier does to its tables. */
module OwnerTasks {
  import opened Wrappers

  datatype EventType = OrderPaid | LateDuplicate | ReceiptMismatch | WebhookDead | Unreported

  /** An event, when it was created, and whether its payment is a mock payment. */
  datatype OwnerEvent = OwnerEvent(kind: EventType, createdAt: int, mock: bool)

  datatype Channel = Email | Feishu

  datatype Settings = Settings(email: bool, feishu: bool, paymentSuccess: bool, anomalies: bool, webhookFailure: bool)

  datatype Source = FromEvent(id: nat) | FromCollector(stateId: string, slot: int) | FromTest(uuid: string)

  /** The unique key of a task. */
  datatype TaskKey = TaskKey(source: Source, channel: Channel)

  datatype TaskStatus = Pending | Sending | Sent | Dead | Cancelled

  datatype Task = Task(status: TaskStatus, owner: Option<string>, lockedUntil: Option<int>, attempts: nat,
                       nextAttemptAt: int)

  /**
   `since` is when the settings were first stored; older events are never told. `erased` holds the numbers of the events
   that an archive deleted: no new event gets one of them.
   */
  datatype Box = Box(now: int, since: int, settings: Settings, events: map<nat, OwnerEvent>, seen: set<nat>,
                     erased: set<nat>, tasks: map<TaskKey, Task>)

  datatype Outcome = Delivered | Disabled | NotSent

  datatype Step =
    | Tick(seconds: nat)
    | CommitEvent(id: nat, event: OwnerEvent)
    | Erase(ids: set<nat>)
    | Configure(settings: Settings)
    | Collect(read: seq<nat>)
    | Alert(stateId: string)
    | TestTask(uuid: string, channel: Channel)
    | Requeue
    | Claim(key: TaskKey, owner: string)
    | Settle(key: TaskKey, owner: string, outcome: Outcome, seenAttempts: nat)

  const LOCK := 120
  const ALERT_SLOT := 900
  const MAX_ATTEMPTS: nat := 5
  const TAKE: nat := 20

  predicate Final(status: TaskStatus) {
    status.Sent? || status.Dead? || status.Cancelled?
  }

  // ---- Collecting --------------------------------------------------------------------------

  predicate Selected(kind: EventType, settings: Settings) {
    match kind
    case OrderPaid => settings.paymentSuccess
    case WebhookDead => settings.webhookFailure
    case _ => settings.anomalies
  }

  predicate Enabled(channel: Channel, settings: Settings) {
    if channel == Email then settings.email else settings.feishu
  }

  predicate Wanted(event: OwnerEvent, settings: Settings) {
    Selected(event.kind, settings) && !event.mock
  }

  /** An event the notifier has yet to look at. */
  predicate Unseen(b: Box, id: nat) {
    id in b.events && b.events[id].kind != Unreported && b.events[id].createdAt >= b.since && id !in b.seen
  }

  function Backlog(b: Box): set<nat> {
    set id | id in b.events && Unseen(b, id)
  }

  function NewTask(now: int): Task {
    Task(Pending, None, None, 0, now)
  }

  /** An upsert that leaves an existing task alone. */
  function Upsert(tasks: map<TaskKey, Task>, key: TaskKey, now: int): map<TaskKey, Task> {
    if key in tasks then tasks else tasks[key := NewTask(now)]
  }

  function EnqueueOn(tasks: map<TaskKey, Task>, source: Source, channel: Channel, settings: Settings,
                     now: int): map<TaskKey, Task> {
    if Enabled(channel, settings) then Upsert(tasks, TaskKey(source, channel), now) else tasks
  }

  /** One task for each enabled channel. */
  function Enqueue(tasks: map<TaskKey, Task>, source: Source, settings: Settings, now: int): map<TaskKey, Task> {
    EnqueueOn(EnqueueOn(tasks, source, Email, settings, now), source, Feishu, settings, now)
  }

  /** The seen marker of an event and its tasks, unless it is marked already. */
  function Mark(b: Box, id: nat): Box {
    if id in b.seen || id !in b.events then b
    else b.(seen := b.seen + {id},
            tasks := if Wanted(b.events[id], b.settings) then Enqueue(b.tasks, FromEvent(id), b.settings, b.now)
              else b.tasks)
  }

  /** The events read earlier, marked one after the other. */
  function MarkAll(b: Box, ids: seq<nat>): Box {
    if ids == [] then b else Mark(MarkAll(b, ids[..|ids| - 1]), ids[|ids| - 1])
  }

  /** A marker refers to its event: each event read is marked already, or still there to be marked. */
  predicate AllThere(b: Box, ids: seq<nat>) {
    forall i | 0 <= i < |ids| :: ids[i] in b.seen || ids[i] in b.events
  }

  /** The collecting transaction, which is rolled back as a whole when an event it has to mark is gone. */
  function AfterCollect(b: Box, ids: seq<nat>): Box {
    if AllThere(b, ids) then MarkAll(b, ids) else b
  }

  /** Deleting events deletes their seen markers. */
  function AfterErase(b: Box, ids: set<nat>): Box {
    b.(events := b.events - ids, seen := b.seen - ids, erased := b.erased + ids * b.events.Keys)
  }

  // ---- Delivering --------------------------------------------------------------------------

  function Requeued(t: Task, now: int): Task {
    if t.status == Sending && t.lockedUntil.Some? && t.lockedUntil.value < now
    then t.(status := Pending, owner := None, lockedUntil := None) else t
  }

  function RequeuedAll(tasks: map<TaskKey, Task>, now: int): map<TaskKey, Task> {
    map k | k in tasks :: Requeued(tasks[k], now)
  }

  function Claimed(t: Task, owner: string, now: int): Task {
    if t.status == Pending
      then t.(status := Sending, owner := Some(owner), lockedUntil := Some(now + LOCK), attempts := t.attempts + 1)
           else t
  }

  function Power2(n: nat): nat {
    if n == 0 then 1 else 2 * Power2(n - 1)
  }

  function RetryDelay(seenAttempts: nat): int {
    if 30 * Power2(seenAttempts) < 3600 then 30 * Power2(seenAttempts) else 3600
  }

  /** The outcome of a send, written only while the sender still holds the lease. */
  function SettledTask(t: Task, owner: string, outcome: Outcome, seenAttempts: nat, now: int): Task {
    if t.status != Sending || t.owner != Some(owner) then t
    else
      match outcome
      case Disabled => t.(status := Cancelled, owner := None, lockedUntil := None)
      case Delivered => t.(status := Sent, owner := None, lockedUntil := None)
      case NotSent => t.(status := if seenAttempts + 1 >= MAX_ATTEMPTS then Dead
                         else Pending, owner := None, lockedUntil := None,
                         nextAttemptAt := now + RetryDelay(seenAttempts))
  }

  function WithTask(b: Box, key: TaskKey, t: Task): Box {
    b.(tasks := b.tasks[key := t])
  }

  /** Fifteen-minute slots, so that one alert per slot and channel is enqueued. */
  function AlertSource(b: Box, stateId: string): Source {
    FromCollector(stateId, b.now / ALERT_SLOT)
  }

  function Apply(b: Box, step: Step): Box {
    match step
    case Tick(d) => b.(now := b.now + d)
    case CommitEvent(id, event) =>
      if id in b.events || id in b.erased then b else b.(events := b.events[id := event])
    case Erase(ids) => AfterErase(b, ids)
    case Configure(settings) => b.(settings := settings)
    case Collect(ids) => AfterCollect(b, ids)
    case Alert(stateId) => b.(tasks := Enqueue(b.tasks, AlertSource(b, stateId), b.settings, b.now))
    case TestTask(uuid, channel) => b.(tasks := Upsert(b.tasks, TaskKey(FromTest(uuid), channel), b.now))
    case Requeue => b.(tasks := RequeuedAll(b.tasks, b.now))
    case Claim(key, owner) => if key in b.tasks then WithTask(b, key, Claimed(b.tasks[key], owner, b.now)) else b
    case Settle(key, owner, outcome, seen) =>
      if key in b.tasks then WithTask(b, key, SettledTask(b.tasks[key], owner, outcome, seen, b.now)) else b
  }

  function Replay(b: Box, steps: seq<Step>): Box {
    if steps == [] then b else Apply(Replay(b, steps[..|steps| - 1]), steps[|steps| - 1])
  }

  function EmptyBox(now: int, settings: Settings): Box {
    Box(now, now, settings, map[], {}, {}, map[])
  }

  // ---- Every run ---------------------------------------------------------------------------

  /** Tasks about an event exist only once it is marked; what is erased does not come back. */
  ghost predicate Inv(b: Box) {
    && (forall k | k in b.tasks && k.source.FromEvent? :: k.source.id in b.seen || k.source.id in b.erased)
    && (forall id | id in b.seen :: id in b.events)
    && (forall id | id in b.erased :: id !in b.events)
  }

  /** What no later step undoes. */
  ghost predicate Later(a: Box, b: Box) {
    && a.now <= b.now && a.since == b.since && a.erased <= b.erased && a.seen <= b.seen + b.erased
    && (forall id | id in a.events :: id in b.erased || (id in b.events && b.events[id] == a.events[id]))
    && (forall k | k in a.tasks ::
        k in b.tasks && (Final(a.tasks[k].status) ==> b.tasks[k] == a.tasks[k])
          && a.tasks[k].attempts <= b.tasks[k].attempts)
    && (forall k | k in b.tasks && k.source.FromEvent? && k.source.id in a.seen + a.erased :: k in a.tasks)
  }

  lemma LaterReflexive(a: Box)
    ensures Later(a, a)
  {
  }

  lemma LaterTransitive(a: Box, b: Box, c: Box)
    requires Later(a, b) && Later(b, c)
    ensures Later(a, c)
  {
  }

  /** Enqueuing adds one per enabled channel and touches no other. */
  lemma EnqueueAdds(tasks: map<TaskKey, Task>, source: Source, settings: Settings, now: int)
    ensures var later := Enqueue(tasks, source, settings, now);
            && (forall k | k in tasks :: k in later && later[k] == tasks[k])
            && (forall k :: k in later <==> k in tasks || (k.source == source && Enabled(k.channel, settings)))
  {
  }

  lemma MarkMoves(b: Box, id: nat)
    requires Inv(b)
    ensures Inv(Mark(b, id)) && Later(b, Mark(b, id)) && (id in b.events ==> id in Mark(b, id).seen)
    ensures Mark(b, id).events == b.events && Mark(b, id).settings == b.settings && Mark(b, id).erased == b.erased
    ensures Mark(b, id).seen <= b.seen + {id}
  {
    hide Enqueue;
    EnqueueAdds(b.tasks, FromEvent(id), b.settings, b.now);
  }

  lemma {:induction false} MarkAllMoves(b: Box, ids: seq<nat>)
    requires Inv(b)
    ensures Inv(MarkAll(b, ids)) && Later(b, MarkAll(b, ids))
    ensures MarkAll(b, ids).events == b.events && MarkAll(b, ids).settings == b.settings
    ensures MarkAll(b, ids).erased == b.erased
    ensures forall id | id in ids && id in b.events :: id in MarkAll(b, ids).seen
    ensures forall id | id in MarkAll(b, ids).seen :: id in b.seen || id in ids
  {
    if ids == [] {
      LaterReflexive(b);
    } else {
      var first, last := ids[..|ids| - 1], ids[|ids| - 1];
      MarkAllMoves(b, first);
      MarkMoves(MarkAll(b, first), last);
      LaterTransitive(b, MarkAll(b, first), MarkAll(b, ids));
      assert ids == first + [last];
    }
  }

  lemma EraseMoves(b: Box, ids: set<nat>)
    requires Inv(b)
    ensures Inv(AfterErase(b, ids)) && Later(b, AfterErase(b, ids))
  {
  }

  /** What one delivery writes on its task. */
  lemma TaskMoves(b: Box, key: TaskKey, owner: string, outcome: Outcome, seen: nat)
    requires Inv(b) && key in b.tasks
    ensures var t := WithTask(b, key, Claimed(b.tasks[key], owner, b.now)); Inv(t) && Later(b, t)
    ensures var t := WithTask(b, key, SettledTask(b.tasks[key], owner, outcome, seen, b.now)); Inv(t) && Later(b, t)
  {
    hide RetryDelay;
  }

  lemma StepMoves(b: Box, step: Step)
    requires Inv(b)
    ensures Inv(Apply(b, step)) && Later(b, Apply(b, step))
  {
    hide MarkAll, Enqueue, AfterErase, Claimed, SettledTask, WithTask;
    LaterReflexive(b);
    match step
    case Collect(ids) => MarkAllMoves(b, ids);
    case Erase(ids) => EraseMoves(b, ids);
    case Claim(key, owner) => if key in b.tasks { TaskMoves(b, key, owner, Delivered, 0); }
    case Settle(key, owner, outcome, seen) => if key in b.tasks { TaskMoves(b, key, owner, outcome, seen); }
    case Alert(stateId) => EnqueueAdds(b.tasks, AlertSource(b, stateId), b.settings, b.now);
    case _ =>
  }

  lemma {:induction false} RunMoves(b: Box, steps: seq<Step>)
    requires Inv(b)
    ensures Inv(Replay(b, steps)) && Later(b, Replay(b, steps))
  {
    hide Inv, Later, Apply;
    if steps == [] {
      LaterReflexive(b);
    } else {
      RunMoves(b, steps[..|steps| - 1]);
      StepMoves(Replay(b, steps[..|steps| - 1]), steps[|steps| - 1]);
      LaterTransitive(b, Replay(b, steps[..|steps| - 1]), Replay(b, steps));
    }
  }

  // ---- What it means for a reader ----------------------------------------------------------

  /** A task that was sent, given up or cancelled stays as it is over any run, whichever worker outlives its lease. */
  lemma FinalIsFinal(b: Box, steps: seq<Step>, key: TaskKey)
    requires Inv(b) && key in b.tasks && Final(b.tasks[key].status)
    ensures key in Replay(b, steps).tasks && Replay(b, steps).tasks[key] == b.tasks[key]
  {
    hide Replay, Inv;
    RunMoves(b, steps);
  }

  /**
   An event is marked together with its tasks: one for each channel enabled then, if its kind is asked for and its
   payment is no mock, and none is ever added afterwards.
   */
  lemma MarkedWithItsTasks(b: Box, id: nat, steps: seq<Step>)
    requires Inv(b) && id in b.events && id !in b.seen
    ensures var tasks, event, s := Replay(Mark(b, id), steps).tasks, b.events[id], b.settings;
            var asked := !event.mock && match event.kind
                                        case OrderPaid => s.paymentSuccess
                                        case WebhookDead => s.webhookFailure
                                        case _ => s.anomalies;
            && (TaskKey(FromEvent(id), Email) in tasks <==> asked && s.email)
            && (TaskKey(FromEvent(id), Feishu) in tasks <==> asked && s.feishu)
  {
    MarkedWithWanted(b, id, steps, Email);
    MarkedWithWanted(b, id, steps, Feishu);
  }

  lemma MarkedWithWanted(b: Box, id: nat, steps: seq<Step>, channel: Channel)
    requires Inv(b) && id in b.events && id !in b.seen
    ensures TaskKey(FromEvent(id), channel) in Replay(Mark(b, id), steps).tasks
            <==> Wanted(b.events[id], b.settings) && Enabled(channel, b.settings)
  {
    hide Enqueue, Replay, Wanted, Enabled;
    var marked := Mark(b, id);
    MarkMoves(b, id);
    RunMoves(marked, steps);
    EnqueueAdds(b.tasks, FromEvent(id), b.settings, b.now);
    assert TaskKey(FromEvent(id), channel) !in b.tasks;
    assert TaskKey(FromEvent(id), channel) in marked.tasks
           <==> Wanted(b.events[id], b.settings) && Enabled(channel, b.settings);
    assert id in marked.seen;
  }

  predicate IsCommit(step: Step) {
    step.CommitEvent?
  }

  /** Without new events the backlog only shrinks. */
  lemma {:induction false} BacklogShrinks(b: Box, steps: seq<Step>)
    requires Inv(b) && forall i | 0 <= i < |steps| :: !IsCommit(steps[i])
    ensures Backlog(Replay(b, steps)) <= Backlog(b)
  {
    hide Backlog, Inv, Apply;
    if steps != [] {
      var before := Replay(b, steps[..|steps| - 1]);
      BacklogShrinks(b, steps[..|steps| - 1]);
      RunMoves(b, steps[..|steps| - 1]);
      StepShrinks(before, steps[|steps| - 1]);
    }
  }

  lemma StepShrinks(b: Box, step: Step)
    requires Inv(b) && !IsCommit(step)
    ensures Backlog(Apply(b, step)) <= Backlog(b)
  {
    hide MarkAll, Enqueue, RequeuedAll;
    if step.Collect? { MarkAllMoves(b, step.read); }
  }

  /** No task is leased to the worker. */
  ghost predicate Unleased(b: Box, owner: string) {
    forall k | k in b.tasks :: b.tasks[k].owner != Some(owner)
  }

  lemma StepUnleased(b: Box, step: Step, owner: string)
    requires Inv(b) && Unleased(b, owner) && !(step.Claim? && step.owner == owner)
    ensures Unleased(Apply(b, step), owner)
  {
    hide MarkAll, Enqueue;
    match step
    case Collect(ids) => MarkAllUnleased(b, ids, owner);
    case Alert(stateId) => EnqueueUnleased(b.tasks, AlertSource(b, stateId), b.settings, b.now, owner);
    case _ =>
  }

  lemma EnqueueUnleased(tasks: map<TaskKey, Task>, source: Source, settings: Settings, now: int, owner: string)
    requires forall k | k in tasks :: tasks[k].owner != Some(owner)
    ensures var later := Enqueue(tasks, source, settings, now); forall k | k in later :: later[k].owner != Some(owner)
  {
  }

  lemma {:induction false} MarkAllUnleased(b: Box, ids: seq<nat>, owner: string)
    requires Unleased(b, owner)
    ensures Unleased(MarkAll(b, ids), owner)
  {
    hide Enqueue;
    if ids != [] {
      var before, id := MarkAll(b, ids[..|ids| - 1]), ids[|ids| - 1];
      MarkAllUnleased(b, ids[..|ids| - 1], owner);
      if id in before.events { EnqueueUnleased(before.tasks, FromEvent(id), before.settings, before.now, owner); }
    }
  }

  lemma {:induction false} RunUnleased(b: Box, steps: seq<Step>, owner: string)
    requires Inv(b) && Unleased(b, owner) && forall i | 0 <= i < |steps| ::
               !(steps[i].Claim? && steps[i].owner == owner)
    ensures Unleased(Replay(b, steps), owner)
  {
    hide Inv, Unleased, Apply;
    if steps != [] {
      RunUnleased(b, steps[..|steps| - 1], owner);
      RunMoves(b, steps[..|steps| - 1]);
      StepUnleased(Replay(b, steps[..|steps| - 1]), steps[|steps| - 1], owner);
    }
  }

  /** A lease writes one outcome: once the worker has settled, nothing it writes later changes any task. */
  lemma LeaseSettlesOnce(b: Box, key: TaskKey, owner: string, outcome: Outcome, seen: nat, later: seq<Step>,
                         again: Step)
    requires Inv(b) && key in b.tasks && b.tasks[key].status == Sending && b.tasks[key].owner == Some(owner)
    requires forall k | k in b.tasks && k != key :: b.tasks[k].owner != Some(owner)
    requires forall i | 0 <= i < |later| :: !(later[i].Claim? && later[i].owner == owner)
    requires again.Settle? && again.owner == owner
    ensures var t := Replay(Apply(b, Settle(key, owner, outcome, seen)), later); Apply(t, again) == t
  {
    hide Replay, Inv, RetryDelay;
    var settled := Apply(b, Settle(key, owner, outcome, seen));
    StepMoves(b, Settle(key, owner, outcome, seen));
    assert Unleased(settled, owner) by { hide RetryDelay; }
    RunUnleased(settled, later, owner);
    var t := Replay(settled, later);
    if again.key in t.tasks { assert t.tasks[again.key := t.tasks[again.key]] == t.tasks; }
  }

  // ---- What happens to a task --------------------------------------------------------------

  /** A retry waits half a minute at first and doubles up to an hour. */
  lemma RetryDelayDoubles(seen: nat)
    ensures RetryDelay(0) == 30
    ensures RetryDelay(seen + 1) == if 2 * RetryDelay(seen) < 3600 then 2 * RetryDelay(seen) else 3600
  {
  }

  /** Nobody holds it any more. */
  predicate Free(t: Task) {
    t.owner.None? && t.lockedUntil.None?
  }

  /** How a task looks after its holder wrote the outcome of one attempt, which was to be attempt `seen + 1`. */
  predicate EndedAs(t: Task, u: Task, outcome: Outcome, seen: nat, now: int) {
    && Free(u) && u.attempts == t.attempts
    && u.status == (match outcome
                    case Delivered => Sent
                    case Disabled => Cancelled
                    case NotSent => if seen >= 4 then Dead else Pending)
    && u.nextAttemptAt == if outcome == NotSent then now + RetryDelay(seen) else t.nextAttemptAt
  }

  /**
   A task changes in three ways: a pending one is claimed for two minutes, which counts as an attempt; the holder of the
   claim writes how it ended; and a claim that lapsed is taken back, with nothing else changed.
   */
  lemma TaskChanges(b: Box, step: Step, key: TaskKey)
    requires Inv(b) && key in b.tasks
    ensures var t := b.tasks[key];
            && key in Apply(b, step).tasks
            && var u := Apply(b, step).tasks[key];
               if step.Claim? && step.key == key && t.status == Pending then
                 u == Task(Sending, Some(step.owner), Some(b.now + 120), t.attempts + 1, t.nextAttemptAt)
               else if step.Settle? && step.key == key && t.status == Sending && t.owner == Some(step.owner) then
                 EndedAs(t, u, step.outcome, step.seenAttempts, b.now)
               else if step.Requeue? && t.status == Sending && t.lockedUntil.Some? && t.lockedUntil.value < b.now then
                 u == Task(Pending, None, None, t.attempts, t.nextAttemptAt)
               else u == t
  {
    hide MarkAll, Enqueue, RetryDelay;
    match step
    case Collect(ids) => MarkAllSpares(b, ids, key);
    case Alert(stateId) => EnqueueAdds(b.tasks, AlertSource(b, stateId), b.settings, b.now);
    case _ =>
  }

  lemma {:induction false} MarkAllSpares(b: Box, ids: seq<nat>, key: TaskKey)
    requires key in b.tasks
    ensures key in MarkAll(b, ids).tasks && MarkAll(b, ids).tasks[key] == b.tasks[key]
  {
    hide Enqueue;
    if ids != [] {
      var before, id := MarkAll(b, ids[..|ids| - 1]), ids[|ids| - 1];
      MarkAllSpares(b, ids[..|ids| - 1], key);
      EnqueueAdds(before.tasks, FromEvent(id), before.settings, before.now);
    }
  }

  /**
   An alert is enqueued once in a quarter of an hour and channel, whatever happens in between, and again afterwards.
   */
  lemma AlertedOnce(b: Box, stateId: string, steps: seq<Step>)
    requires Inv(b)
    ensures var t := Replay(Apply(b, Alert(stateId)), steps);
            && (t.now / 900 == b.now / 900 && t.settings == b.settings ==> Apply(t, Alert(stateId)).tasks == t.tasks)
            && (t.now >= b.now + 900 ==> AlertSource(t, stateId) != AlertSource(b, stateId))
  {
    hide Inv, Replay, Enqueue;
    var first := Apply(b, Alert(stateId));
    StepMoves(b, Alert(stateId));
    RunMoves(first, steps);
    var t := Replay(first, steps);
    EnqueueAdds(b.tasks, AlertSource(b, stateId), b.settings, b.now);
    EnqueueAdds(t.tasks, AlertSource(t, stateId), t.settings, t.now);
  }

  // ---- The notifier's run ------------------------------------------------------------------

  /** The first events of the backlog in the order of their numbers, twenty at most. */
  ghost predicate FirstUnseen(b: Box, ids: seq<nat>) {
    && (forall i | 0 <= i < |ids| :: ids[i] in Backlog(b))
    && (forall i, j | 0 <= i < j < |ids| :: ids[i] < ids[j])
    && (forall i, id | 0 <= i < |ids| && id in Backlog(b) && id !in ids :: ids[i] < id)
    && |ids| == if |Backlog(b)| < TAKE then |Backlog(b)| else TAKE
  }

  /** How many tasks a run delivers at most. */
  const BATCH: nat := 5

  predicate IsDue(b: Box, key: TaskKey) {
    key in b.tasks && b.tasks[key].status == Pending && b.tasks[key].nextAttemptAt <= b.now
  }

  /** The first `BATCH` of the pending tasks that are due by their time, or all, with the attempts read. */
  ghost predicate DueTasks(b: Box, due: seq<(TaskKey, nat)>) {
    && |due| <= BATCH
    && (forall i | 0 <= i < |due| :: IsDue(b, due[i].0) && due[i].1 == b.tasks[due[i].0].attempts)
    && (forall i, j | 0 <= i < j < |due| :: due[i].0 != due[j].0 && TaskAt(b, due[i].0) <= TaskAt(b, due[j].0))
    && (forall key | IsDue(b, key) && (key, b.tasks[key].attempts) !in due ::
          |due| == BATCH && forall i | 0 <= i < |due| :: TaskAt(b, due[i].0) <= TaskAt(b, key))
  }

  function TaskAt(b: Box, key: TaskKey): int {
    if key in b.tasks then b.tasks[key].nextAttemptAt else 0
  }

  /**
   One delivery: the worker's lease id, what others do before it claims, reads the settings and writes, and how
   sending ends.
   */
  datatype Delivery = Delivery(claiming: seq<Step>, owner: string, reading: seq<Step>, meanwhile: seq<Step>, sent: bool)

  function OutcomeOf(enabled: bool, sent: bool): Outcome {
    if !enabled then Disabled else if sent then Delivered else NotSent
  }

  /** The steps of one delivery: nothing but the claim when another worker has it. */
  function DeliverySteps(b: Box, key: TaskKey, seen: nat, d: Delivery): seq<Step> {
    var found, claim := Replay(b, d.claiming), d.claiming + [Claim(key, d.owner)];
    if !(key in found.tasks && found.tasks[key].status == Pending) then claim
    else
      var enabled := Enabled(key.channel, Replay(b, claim + d.reading).settings);
      claim + d.reading + d.meanwhile + [Settle(key, d.owner, OutcomeOf(enabled, d.sent), seen)]
  }

  /** The settings send over the channel. */
  predicate SendsOver(settings: Settings, channel: Channel) {
    match channel
    case Email => settings.email
    case Feishu => settings.feishu
  }

  /** How one undisturbed delivery leaves its task, and all the others. */
  ghost predicate DeliveredAs(b: Box, key: TaskKey, seen: nat, sent: bool, t: Box) {
    && key in b.tasks && b.tasks[key].status == Pending && t.tasks.Keys == b.tasks.Keys
    && (forall k | k in b.tasks && k != key :: t.tasks[k] == b.tasks[k])
    && var before, after := b.tasks[key], t.tasks[key];
       && Free(after) && after.attempts == before.attempts + 1
       && (after.status == Sent <==> SendsOver(b.settings, key.channel) && sent)
       && (after.status == Cancelled <==> !SendsOver(b.settings, key.channel))
       && (after.status == Dead <==> SendsOver(b.settings, key.channel) && !sent && seen >= 4)
       && (after.status == Pending ==> after.nextAttemptAt == b.now + RetryDelay(seen))
       && after.status != Sending
  }

  lemma OneStep(b: Box, step: Step)
    ensures Replay(b, [step]) == Apply(b, step) && Replay(b, []) == b
  {
    hide Apply;
    assert [step][..0] == [];
  }

  lemma TwoSteps(b: Box, first: Step, second: Step)
    ensures Replay(b, [first, second]) == Apply(Apply(b, first), second)
  {
    hide Apply;
    OneStep(b, first);
    assert [first, second][..1] == [first];
  }

  lemma QuietSteps(b: Box, key: TaskKey, seen: nat, d: Delivery)
    requires d.claiming == d.reading == d.meanwhile == []
    ensures var end := Settle(key, d.owner, OutcomeOf(Enabled(key.channel, b.settings), d.sent), seen);
            DeliverySteps(b, key, seen, d)
            == if key in b.tasks && b.tasks[key].status == Pending then [Claim(key, d.owner), end]
               else [Claim(key, d.owner)]
  {
    hide Replay, Apply, OutcomeOf, Enabled;
    var claim := Claim(key, d.owner);
    OneStep(b, claim);
    assert [] + [claim] == [claim] && [claim] + [] == [claim];
    ClaimKeepsSettings(b, key, d.owner);
  }

  lemma ClaimKeepsSettings(b: Box, key: TaskKey, owner: string)
    ensures Apply(b, Claim(key, owner)).settings == b.settings && Apply(b, Claim(key, owner)).now == b.now
  {
  }

  lemma ClaimedAndSettled(b: Box, key: TaskKey, seen: nat, owner: string, sent: bool)
    requires key in b.tasks && b.tasks[key].status == Pending
    ensures var end := Settle(key, owner, OutcomeOf(Enabled(key.channel, b.settings), sent), seen);
            DeliveredAs(b, key, seen, sent, Apply(Apply(b, Claim(key, owner)), end))
  {
    hide RetryDelay;
  }

  /**
   A delivery that nobody disturbs: sent, given up after five attempts, cancelled with its channel, or tried later.
   */
  lemma QuietDelivery(b: Box, key: TaskKey, seen: nat, d: Delivery)
    requires d.claiming == d.reading == d.meanwhile == []
    ensures var t := Replay(b, DeliverySteps(b, key, seen, d));
            if key in b.tasks && b.tasks[key].status == Pending then DeliveredAs(b, key, seen, d.sent, t)
            else t == b
  {
    hide Replay, Apply, DeliveredAs, DeliverySteps, OutcomeOf, Enabled;
    var claim := Claim(key, d.owner);
    QuietSteps(b, key, seen, d);
    OneStep(b, claim);
    if key in b.tasks && b.tasks[key].status == Pending {
      TwoSteps(b, claim, Settle(key, d.owner, OutcomeOf(Enabled(key.channel, b.settings), d.sent), seen));
      ClaimedAndSettled(b, key, seen, d.owner, d.sent);
    } else {
      NothingToClaim(b, key, d.owner);
    }
  }

  lemma NothingToClaim(b: Box, key: TaskKey, owner: string)
    requires key !in b.tasks || b.tasks[key].status != Pending
    ensures Apply(b, Claim(key, owner)) == b
  {
    if key in b.tasks { assert b.tasks[key := b.tasks[key]] == b.tasks; }
  }

  function BatchSteps(b: Box, due: seq<(TaskKey, nat)>, deliveries: seq<Delivery>, n: nat): seq<Step>
    requires n <= |due| && n <= |deliveries|
  {
    if n == 0 then []
    else
      var before := BatchSteps(b, due, deliveries, n - 1);
      before + DeliverySteps(Replay(b, before), due[n - 1].0, due[n - 1].1, deliveries[n - 1])
  }

  /**
   The steps of `runOwnerNotifications`: collect, take over expired leases, then deliver what is due. A run whose
   collecting transaction is rolled back ends there.
   */
  ghost predicate NotifierRun(b: Box, collecting: seq<Step>, requeuing: seq<Step>, deliveries: seq<Delivery>,
                              steps: seq<Step>)
    requires |deliveries| >= BATCH
  {
    exists ids, due ::
      && FirstUnseen(b, ids)
      && if !AllThere(Replay(b, collecting), ids) then steps == collecting + [Collect(ids)]
         else
           && DueTasks(Replay(b, Opening(collecting, ids, requeuing)), due)
           && steps == Opening(collecting, ids, requeuing)
                       + BatchSteps(Replay(b, Opening(collecting, ids, requeuing)), due, deliveries, |due|)
  }

  function Opening(collecting: seq<Step>, ids: seq<nat>, requeuing: seq<Step>): seq<Step> {
    collecting + [Collect(ids)] + requeuing + [Requeue]
  }

  lemma {:induction false} ReplayAppend(b: Box, first: seq<Step>, later: seq<Step>)
    ensures Replay(b, first + later) == Replay(Replay(b, first), later)
  {
    if later == [] {
      assert first + later == first;
    } else {
      assert (first + later)[..|first + later| - 1] == first + later[..|later| - 1];
      ReplayAppend(b, first, later[..|later| - 1]);
    }
  }
}
