/** The notifier over its stored tables: its transactions, and the run that issues them. */
module OwnerNotifier {
  import opened Wrappers
  import opened OwnerTasks

  class OwnerStore {
    var now: int
    const since: int
    var settings: Settings
    var events: map<nat, OwnerEvent>
    var seen: set<nat>
    // The numbers of deleted events, which are not given out again.
    var erased: set<nat>
    var tasks: map<TaskKey, Task>
    // The steps taken since the tables were created, and the tables at that time.
    ghost const birth: Box
    ghost var log: seq<Step>

    ghost predicate Valid()
      reads this
    {
      Inv(birth) && View() == Replay(birth, log)
    }

    ghost function View(): Box
      reads this
    {
      Box(now, since, settings, events, seen, erased, tasks)
    }

    constructor (now: int, settings: Settings)
      ensures Valid() && View() == EmptyBox(now, settings) && log == []
    {
      this.now, this.since, this.settings := now, now, settings;
      events, seen, erased, tasks := map[], {}, {}, map[];
      birth, log := EmptyBox(now, settings), [];
    }

    /** What the tables promise after any history. */
    lemma AlwaysInv()
      requires Valid()
      ensures Inv(View())
    {
      RunMoves(birth, log);
    }

    lemma Logged(before: Box, step: Step)
      requires Inv(birth) && log != [] && log[|log| - 1] == step && before == Replay(birth, log[..|log| - 1])
      requires View() == Apply(before, step)
      ensures Valid()
    {
      hide Apply, Inv;
    }

    /** One statement of some run, or one event of the world. */
    method Execute(step: Step)
      requires Valid()
      modifies this
      ensures Valid() && log == old(log) + [step] && View() == Apply(old(View()), step)
    {
      ghost var before := View();
      Perform(step);
      log := log + [step];
      assert log[..|log| - 1] == old(log);
      hide Apply, Inv;
      Logged(before, step);
    }

    method Perform(step: Step)
      modifies this`now, this`settings, this`events, this`seen, this`erased, this`tasks
      ensures View() == Apply(old(View()), step)
    {
      hide MarkAll, Enqueue, RequeuedAll, Upsert, Claimed, SettledTask;
      match step
      case Tick(d) => now := now + d;
      case CommitEvent(id, event) => if id !in events && id !in erased { events := events[id := event]; }
      case Erase(ids) => EraseEvents(ids);
      case Configure(s) => settings := s;
      case Collect(ids) => var _ := MarkEvents(ids);
      case Alert(stateId) => EnqueueTasks(FromCollector(stateId, now / ALERT_SLOT));
      case TestTask(uuid, channel) => tasks := Upsert(tasks, TaskKey(FromTest(uuid), channel), now);
      case Requeue => tasks := RequeuedAll(tasks, now);
      case Claim(key, owner) => var _ := ClaimTask(key, owner);
      case Settle(key, owner, outcome, attempts) => SettleTask(key, owner, outcome, attempts);
    }

    /** What other workers and requests do in between. */
    method Interleave(others: seq<Step>)
      requires Valid()
      modifies this
      ensures Valid() && log == old(log) + others && View() == Replay(old(View()), others)
    {
      hide Apply;
      var i := 0;
      assert others[..0] == [];
      while i < |others|
        invariant 0 <= i <= |others|
        invariant Valid() && log == old(log) + others[..i] && View() == Replay(old(View()), others[..i])
      {
        Execute(others[i]);
        i := i + 1;
        assert others[..i][..i - 1] == others[..i - 1];
      }
      assert others[..i] == others;
    }

    /** `enqueue`: a task for each enabled channel, existing ones left alone. */
    method EnqueueTasks(source: Source)
      modifies this`tasks
      ensures tasks == Enqueue(old(tasks), source, settings, now)
    {
      if settings.email { tasks := Upsert(tasks, TaskKey(source, Email), now); }
      if settings.feishu { tasks := Upsert(tasks, TaskKey(source, Feishu), now); }
    }

    /** Deleted with their markers. */
    method EraseEvents(ids: set<nat>)
      modifies this`events, this`seen, this`erased
      ensures View() == AfterErase(old(View()), ids)
      ensures forall id | id in ids :: id !in events && id !in seen
    {
      erased := erased + ids * events.Keys;
      events, seen := events - ids, seen - ids;
    }

    /**
     The collecting transaction: seen markers and tasks are written together, or nothing is written because an event
     to be marked is gone.
     */
    method MarkEvents(ids: seq<nat>) returns (done: bool)
      modifies this`seen, this`tasks
      ensures View() == AfterCollect(old(View()), ids)
      ensures done == AllThere(old(View()), ids) && (!done ==> View() == old(View()))
    {
      hide Enqueue, Wanted;
      var rollback, queued := seen, tasks;
      var i := 0;
      assert ids[..0] == [];
      while i < |ids|
        invariant 0 <= i <= |ids|
        invariant View() == MarkAll(old(View()), ids[..i]) && View() == old(View()).(seen := seen, tasks := tasks)
        invariant forall j | 0 <= j < i :: ids[j] in events || ids[j] in seen
        invariant rollback <= seen <= rollback + events.Keys
      {
        var id := ids[i];
        if id !in seen {
          if id !in events {
            assert ids[i] == id && id !in rollback;
            seen, tasks := rollback, queued;
            return false;
          }
          seen := seen + {id};
          if Wanted(events[id], settings) { EnqueueTasks(FromEvent(id)); }
        }
        i := i + 1;
        assert ids[..i][..i - 1] == ids[..i - 1];
      }
      assert ids[..i] == ids;
      return true;
    }

    method ClaimTask(key: TaskKey, owner: string) returns (claimed: bool)
      modifies this`tasks
      ensures View() == Apply(old(View()), Claim(key, owner))
      ensures claimed == (key in old(tasks) && old(tasks)[key].status == Pending)
    {
      claimed := key in tasks && tasks[key].status == Pending;
      if claimed {
        var t := tasks[key];
        tasks := tasks[key := t.(status := Sending, owner := Some(owner), lockedUntil := Some(now + LOCK),
                                 attempts := t.attempts + 1)];
      } else if key in tasks {
        assert tasks[key := tasks[key]] == tasks;
      }
    }

    /** Written only while this worker still holds it. */
    method SettleTask(key: TaskKey, owner: string, outcome: Outcome, attempts: nat)
      modifies this`tasks
      ensures View() == Apply(old(View()), Settle(key, owner, outcome, attempts))
    {
      if key in tasks {
        var t := tasks[key];
        if t.status == Sending && t.owner == Some(owner) {
          var free := t.(owner := None, lockedUntil := None);
          match outcome
          case Disabled => tasks := tasks[key := free.(status := Cancelled)];
          case Delivered => tasks := tasks[key := free.(status := Sent)];
          case NotSent =>
            tasks := tasks[key := free.(status := if attempts + 1 >= MAX_ATTEMPTS then Dead
                                        else Pending, nextAttemptAt := now + RetryDelay(attempts))];
        } else {
          assert tasks[key := t] == tasks;
        }
      }
    }

    /** The earliest event not yet looked at, apart from those chosen already. */
    method EarliestUnseen(chosen: seq<nat>) returns (id: Option<nat>)
      ensures id.None? ==> forall other | other in Backlog(View()) :: other in chosen
      ensures id.Some? ==> id.value in Backlog(View()) && id.value !in chosen
      ensures id.Some? ==> forall other | other in Backlog(View()) && other !in chosen :: id.value <= other
    {
      id := None;
      var rest := events.Keys;
      while rest != {}
        invariant rest <= events.Keys
        invariant id.None? ==> forall other | other in Backlog(View()) && other !in chosen :: other in rest
        invariant id.Some? ==> id.value in Backlog(View()) && id.value !in chosen
        invariant id.Some? ==> forall other | other in Backlog(View()) && other !in chosen && other !in rest ::
                    id.value <= other
        decreases rest
      {
        var next :| next in rest;
        rest := rest - {next};
        if events[next].kind != Unreported && events[next].createdAt >= since && next !in seen && next !in chosen
           && (id.None? || next < id.value) {
          id := Some(next);
        }
      }
    }

    /** The event is of a kind the owner is told about, not older than the settings, and not yet looked at. */
    predicate ToBeTold(id: nat)
      reads this
    {
      id in events && events[id].kind in {OrderPaid, EventType.LateDuplicate, ReceiptMismatch, WebhookDead}
        && since <= events[id].createdAt && id !in seen
    }

    lemma ToldIsBacklog()
      ensures forall id :: ToBeTold(id) <==> id in Backlog(View())
    {
    }

    /** The events the collecting transaction will mark. */
    method ReadBacklog() returns (ids: seq<nat>)
      ensures FirstUnseen(View(), ids)
      ensures |ids| <= 20 && forall i | 0 <= i < |ids| :: ToBeTold(ids[i])
      ensures forall i, id | 0 <= i < |ids| && ToBeTold(id) && id !in ids :: ids[i] < id && |ids| == 20
    {
      hide Backlog;
      ids := [];
      while |ids| < TAKE
        invariant |ids| <= TAKE
        invariant forall i | 0 <= i < |ids| :: ids[i] in Backlog(View())
        invariant forall i, j | 0 <= i < j < |ids| :: ids[i] < ids[j]
        invariant forall i, id | 0 <= i < |ids| && id in Backlog(View()) && id !in ids :: ids[i] < id
        decreases TAKE - |ids|
      {
        var next := EarliestUnseen(ids);
        if next.None? { break; }
        ids := ids + [next.value];
      }
      AscendingFits(ids, Backlog(View()));
      ToldIsBacklog();
    }

    /** Where the tables stand after the steps logged since `first`. */
    lemma Ran(first: seq<Step>, steps: seq<Step>)
      requires Valid() && log == first + steps
      ensures View() == Replay(Replay(birth, first), steps)
    {
      hide Apply, Replay;
      ReplayAppend(birth, first, steps);
    }

    /** The tables only move on. */
    lemma Onward(first: seq<Step>, steps: seq<Step>)
      requires Valid() && log == first + steps
      ensures Inv(View()) && Later(Replay(birth, first), View())
    {
      hide Apply, Replay, Inv, Later;
      Ran(first, steps);
      RunMoves(birth, first);
      RunMoves(Replay(birth, first), steps);
    }

    /**
     `collectOwnerEvents`, with anything happening between its read and its transaction. Exactly if none of the events
     read was deleted meanwhile they are taken off the backlog, which is lowered by the twenty of them, or by all, as
     long as no new event is committed; otherwise the transaction takes nothing off.
     */
    method CollectOwnerEvents(others: seq<Step>) returns (ids: seq<nat>, done: bool)
      requires Valid()
      modifies this
      ensures Valid() && Later(old(View()), View())
      ensures FirstUnseen(old(View()), ids) && log == old(log) + others + [Collect(ids)]
      ensures done <==> forall i | 0 <= i < |ids| :: ids[i] in Replay(old(View()), others).events
      ensures done == AllThere(Replay(old(View()), others), ids)
      ensures Backlog(View()) == Backlog(Replay(old(View()), others)) - if done then Elements(ids) else {}
      ensures done && (forall i | 0 <= i < |others| :: !IsCommit(others[i])) ==>
                |Backlog(View())|
                  <= |Backlog(old(View()))| - (if |Backlog(old(View()))| < 20 then |Backlog(old(View()))| else 20)
      ensures others == [] ==>
                && done
                && |Backlog(View())|
                   == |Backlog(old(View()))| - (if |Backlog(old(View()))| < 20 then |Backlog(old(View()))| else 20)
    {
      hide Apply, Replay, Inv, Later, Backlog;
      AlwaysInv();
      ids := ReadBacklog();
      ghost var first := View();
      Interleave(others);
      ghost var middle := View();
      done := forall i | 0 <= i < |ids| :: ids[i] in seen || ids[i] in events;
      Execute(Collect(ids));
      RunMoves(first, others);
      StepMoves(middle, Collect(ids));
      LaterTransitive(first, middle, View());
      CollectTakes(middle, ids);
      SeenIsThere(middle);
      NoSteps(first);
      ReadThere(first, ids);
      if done { MarkedDown(first, others, ids); }
    }

    /** The due task with the earliest time besides those taken. */
    method EarliestDue(taken: seq<TaskKey>) returns (found: Option<TaskKey>)
      ensures found.None? ==> forall key | IsDue(View(), key) :: key in taken
      ensures found.Some? ==> IsDue(View(), found.value) && found.value !in taken
      ensures found.Some? ==> forall key | IsDue(View(), key) && key !in taken ::
                TaskAt(View(), found.value) <= TaskAt(View(), key)
    {
      found := None;
      var rest := tasks.Keys;
      while rest != {}
        invariant rest <= tasks.Keys
        invariant found.None? ==> forall key | IsDue(View(), key) && key !in rest :: key in taken
        invariant found.Some? ==> IsDue(View(), found.value) && found.value !in taken
        invariant found.Some? ==>
                    forall key | IsDue(View(), key) && key !in taken && key !in rest ::
                      TaskAt(View(), found.value) <= TaskAt(View(), key)
        decreases rest
      {
        var key :| key in rest;
        rest := rest - {key};
        if tasks[key].status == Pending && tasks[key].nextAttemptAt <= now && key !in taken
           && (found.None? || tasks[key].nextAttemptAt < tasks[found.value].nextAttemptAt) {
          found := Some(key);
        }
      }
    }

    /** What the worker finds due. */
    method ReadDue() returns (due: seq<(TaskKey, nat)>)
      ensures DueTasks(View(), due)
      ensures |due| <= 5 && forall i | 0 <= i < |due| ::
                && due[i].0 in tasks && tasks[due[i].0].status == Pending && tasks[due[i].0].nextAttemptAt <= now
                && due[i].1 == tasks[due[i].0].attempts
      ensures |due| < 5 ==>
                forall key | key in tasks && tasks[key].status == Pending && tasks[key].nextAttemptAt <= now ::
                  (key, tasks[key].attempts) in due
    {
      hide IsDue, TaskAt, DueTasks;
      var keys: seq<TaskKey> := [];
      while |keys| < BATCH
        invariant |keys| <= BATCH
        invariant forall i | 0 <= i < |keys| :: IsDue(View(), keys[i])
        invariant forall i, j | 0 <= i < j < |keys| ::
                    keys[i] != keys[j] && TaskAt(View(), keys[i]) <= TaskAt(View(), keys[j])
        invariant forall i, key | 0 <= i < |keys| && IsDue(View(), key) && key !in keys ::
                    TaskAt(View(), keys[i]) <= TaskAt(View(), key)
        decreases BATCH - |keys|
      {
        var next := EarliestDue(keys);
        if next.None? { break; }
        keys := keys + [next.value];
      }
      var stored := tasks;
      due := seq(|keys|, i requires 0 <= i < |keys| =>
                 (keys[i], if keys[i] in stored then stored[keys[i]].attempts else 0));
      TasksRead(View(), keys, due);
      DueAreRead(View(), due);
    }

    /**
     `runOwnerNotifications`: collect, requeue, then claim and send what is due. The owner ids, the outcomes of the
     sends and what happens meanwhile, lease overruns included, are inputs.
     */
    method RunOwnerNotifications(collecting: seq<Step>, requeuing: seq<Step>, deliveries: seq<Delivery>)
      requires Valid() && |deliveries| >= BATCH
      modifies this
      ensures Valid() && Later(old(View()), View()) && old(log) <= log
      ensures NotifierRun(old(View()), collecting, requeuing, deliveries, log[|old(log)|..])
    {
      hide Apply, Replay, Inv, Later, Backlog, FirstUnseen, DueTasks, BatchSteps, AllThere;
      ghost var first, b := log, View();
      var ids, done := CollectOwnerEvents(collecting);
      if !done {
        assert log[|first|..] == collecting + [Collect(ids)];
        return;
      }
      Interleave(requeuing);
      Execute(Requeue);
      assert log == first + Opening(collecting, ids, requeuing);
      Ran(first, Opening(collecting, ids, requeuing));
      var due := ReadDue();
      ghost var s := View();
      assert |due| <= BATCH by { DueBounded(s, due); }
      DeliverBatch(due, deliveries);
      ghost var steps := Opening(collecting, ids, requeuing) + BatchSteps(s, due, deliveries, |due|);
      assert log == first + steps;
      assert log[|first|..] == steps;
      Onward(first, steps);
    }

    /** What was found due, one after the other. */
    method DeliverBatch(due: seq<(TaskKey, nat)>, deliveries: seq<Delivery>)
      requires Valid() && |due| <= |deliveries|
      modifies this
      ensures Valid() && log == old(log) + BatchSteps(old(View()), due, deliveries, |due|)
    {
      hide Apply, Replay, DeliverySteps;
      ghost var first, b := log, View();
      var i := 0;
      while i < |due|
        invariant 0 <= i <= |due|
        invariant Valid() && log == first + BatchSteps(b, due, deliveries, i)
      {
        Ran(first, BatchSteps(b, due, deliveries, i));
        Send(due[i].0, due[i].1, deliveries[i]);
        i := i + 1;
      }
    }

    /** One task: claimed, sent, and settled where it is still in this worker's hands. */
    method Send(key: TaskKey, seen: nat, d: Delivery)
      requires Valid()
      modifies this
      ensures Valid() && log == old(log) + DeliverySteps(old(View()), key, seen, d)
      ensures d.claiming == d.reading == d.meanwhile == [] ==>
                if key in old(tasks) && old(tasks)[key].status == Pending
                then DeliveredAs(old(View()), key, seen, d.sent, View())
                else View() == old(View())
    {
      hide Apply, Replay, Enabled, DeliveredAs;
      ghost var first, b := log, View();
      Interleave(d.claiming);
      var claimed := key in tasks && tasks[key].status == Pending;
      Execute(Claim(key, d.owner));
      if claimed {
        Interleave(d.reading);
        Ran(first, d.claiming + [Claim(key, d.owner)] + d.reading);
        var enabled := Enabled(key.channel, settings);
        Interleave(d.meanwhile);
        Execute(Settle(key, d.owner, OutcomeOf(enabled, d.sent), seen));
      }
      Ran(first, DeliverySteps(b, key, seen, d));
      if d.claiming == d.reading == d.meanwhile == [] { QuietDelivery(b, key, seen, d); }
    }
  }

  /** The due tasks read, paired with their attempts. */
  lemma TasksRead(b: Box, keys: seq<TaskKey>, due: seq<(TaskKey, nat)>)
    requires |keys| == |due| <= BATCH
    requires forall i | 0 <= i < |keys| ::
               IsDue(b, keys[i]) && due[i] == (keys[i], if keys[i] in b.tasks then b.tasks[keys[i]].attempts else 0)
    requires forall i, j | 0 <= i < j < |keys| :: keys[i] != keys[j] && TaskAt(b, keys[i]) <= TaskAt(b, keys[j])
    requires forall i, key | 0 <= i < |keys| && IsDue(b, key) && key !in keys :: TaskAt(b, keys[i]) <= TaskAt(b, key)
    requires |keys| == BATCH || forall key | IsDue(b, key) :: key in keys
    ensures DueTasks(b, due)
  {
    hide TaskAt;
    forall i | 0 <= i < |keys| ensures (keys[i], b.tasks[keys[i]].attempts) in due {
      assert due[i] == (keys[i], b.tasks[keys[i]].attempts);
    }
  }

  lemma DueAreRead(b: Box, due: seq<(TaskKey, nat)>)
    requires DueTasks(b, due)
    ensures |due| <= 5 && forall i | 0 <= i < |due| ::
              && due[i].0 in b.tasks && b.tasks[due[i].0].status == Pending
              && b.tasks[due[i].0].nextAttemptAt <= b.now && due[i].1 == b.tasks[due[i].0].attempts
    ensures |due| < 5 ==>
              forall key | key in b.tasks && b.tasks[key].status == Pending && b.tasks[key].nextAttemptAt <= b.now ::
                (key, b.tasks[key].attempts) in due
  {
    forall key | IsDue(b, key) && |due| < 5 ensures (key, b.tasks[key].attempts) in due {
    }
  }

  lemma DueBounded(b: Box, due: seq<(TaskKey, nat)>)
    requires DueTasks(b, due)
    ensures |due| <= BATCH
  {
  }

  lemma Subset(a: set<nat>, b: set<nat>)
    requires a <= b
    ensures |a| <= |b|
  {
    assert b == a + (b - a);
  }

  function Elements(ids: seq<nat>): set<nat> {
    set id | id in ids
  }

  lemma {:induction false} AsMany(ids: seq<nat>)
    requires forall i, j | 0 <= i < j < |ids| :: ids[i] != ids[j]
    ensures |Elements(ids)| == |ids|
  {
    if ids != [] {
      var first, last := ids[..|ids| - 1], ids[|ids| - 1];
      AsMany(first);
      assert ids == first + [last];
      assert last !in Elements(first);
      assert Elements(ids) == Elements(first) + {last};
    }
  }

  lemma ReadSubset(ids: seq<nat>, s: set<nat>)
    requires forall i | 0 <= i < |ids| :: ids[i] in s
    ensures Elements(ids) <= s
  {
  }

  /** Distinct events of a set are no more than the set holds, and as many when they are all of it. */
  lemma AscendingFits(ids: seq<nat>, s: set<nat>)
    requires forall i | 0 <= i < |ids| :: ids[i] in s
    requires forall i, j | 0 <= i < j < |ids| :: ids[i] < ids[j]
    ensures |ids| <= |s| && ((forall id | id in s :: id in ids) ==> |ids| == |s|)
  {
    AsMany(ids);
    ReadSubset(ids, s);
    Subset(Elements(ids), s);
    if forall id | id in s :: id in ids { assert Elements(ids) == s; }
  }

  /** The collecting transaction leaves exactly the unread part of the backlog. */
  lemma BacklogAfter(b: Box, ids: seq<nat>)
    requires Inv(b)
    ensures Backlog(MarkAll(b, ids)) == Backlog(b) - Elements(ids)
  {
    hide Inv, MarkAll;
    MarkAllMoves(b, ids);
  }

  /** What the collecting transaction takes off the backlog it meets. */
  lemma CollectTakes(b: Box, ids: seq<nat>)
    requires Inv(b)
    ensures Backlog(Apply(b, Collect(ids))) == Backlog(b) - if AllThere(b, ids) then Elements(ids) else {}
    ensures AllThere(b, ids) ==> Apply(b, Collect(ids)) == MarkAll(b, ids)
  {
    hide Inv, MarkAll, Backlog;
    BacklogAfter(b, ids);
  }

  lemma SeenIsThere(b: Box)
    requires Inv(b)
    ensures b.seen <= b.events.Keys
  {
  }

  lemma ReadThere(b: Box, ids: seq<nat>)
    requires FirstUnseen(b, ids)
    ensures forall i | 0 <= i < |ids| :: ids[i] in b.events
  {
  }

  /** Without new events the backlog goes down by what was read. */
  lemma MarkedDown(b: Box, others: seq<Step>, ids: seq<nat>)
    requires Inv(b) && FirstUnseen(b, ids)
    ensures var middle := Replay(b, others);
            && ((forall i | 0 <= i < |others| :: !IsCommit(others[i])) ==>
                  |Backlog(MarkAll(middle, ids))| <= |Backlog(b)| - |ids|)
            && (others == [] ==> |Backlog(MarkAll(middle, ids))| == |Backlog(b)| - |ids|)
  {
    hide Inv, Backlog, MarkAll, Apply;
    RunMoves(b, others);
    if forall i | 0 <= i < |others| :: !IsCommit(others[i]) {
      BacklogShrinks(b, others);
      Lowered(b, Replay(b, others), ids);
    }
  }

  lemma CountLeft(all: set<nat>, read: set<nat>, left: set<nat>)
    requires read <= all && left <= all - read
    ensures |left| <= |all| - |read| && (left == all - read ==> |left| == |all| - |read|)
  {
    assert |all - read| == |all| - |read|;
    Subset(left, all - read);
  }

  /** What the read events take off the backlog, whatever happened before they are marked. */
  lemma Lowered(b: Box, middle: Box, ids: seq<nat>)
    requires Inv(middle) && Backlog(middle) <= Backlog(b)
    requires forall i | 0 <= i < |ids| :: ids[i] in Backlog(b)
    requires forall i, j | 0 <= i < j < |ids| :: ids[i] != ids[j]
    ensures |Backlog(MarkAll(middle, ids))| <= |Backlog(b)| - |ids|
    ensures middle == b ==> |Backlog(MarkAll(middle, ids))| == |Backlog(b)| - |ids|
  {
    hide *;
    AsMany(ids);
    BacklogAfter(middle, ids);
    ReadSubset(ids, Backlog(b));
    CountLeft(Backlog(b), Elements(ids), Backlog(MarkAll(middle, ids)));
  }

  lemma NoSteps(b: Box)
    ensures Replay(b, []) == b
  {
  }
}
