/**
 The debounced acknowledgement queue: events wait in a shared bounded queue,
 several workers take them, merge them into batches, and commit each batch
 when it falls due.
 */
module AckModel {
  import opened Models

  const QUEUE_CAPACITY := 10000
  const EXPIRE_SECONDS := 30
  const SAVE_SECONDS := 5
  const U16 := 65536

  /** One message of an event; the ticket says which accepted event brought it. */
  datatype Item = Item(ticket: nat, mass: bool)

  datatype AckEvent = ProcessMessage(messages: seq<Item>) | AckMessage(id: string)

  datatype Data = Data(channel: string, user: Option<string>, event: AckEvent)

  datatype Key = Key(user: Option<string>, channel: string, process: bool)

  /** A delayed task; times are in milliseconds. */
  datatype Task = Task(event: AckEvent, runNow: bool, lastUpdated: int, firstSeen: int)

  type Tasks = map<Key, Task>

  function KeyOf(d: Data): Key {
    Key(d.user, d.channel, d.event.ProcessMessage?)
  }

  /** Whole seconds, and none for a time in the future. */
  function ElapsedSeconds(since: int, now: int): nat {
    if now <= since then 0 else (now - since) / 1000
  }

  predicate ShouldRun(task: Task, now: int) {
    || task.runNow
    || ElapsedSeconds(task.firstSeen, now) > EXPIRE_SECONDS
    || ElapsedSeconds(task.lastUpdated, now) > SAVE_SECONDS
  }

  /** Another event for a task's key; the batch length is compared as a 16-bit number. */
  function Merged(task: Task, event: AckEvent, now: int, limit: nat): Task {
    match event
    case AckMessage(_) => task.(event := event, lastUpdated := now)
    case ProcessMessage(arrived) =>
      if !task.event.ProcessMessage? || arrived == [] then task
      else
        var m := arrived[|arrived| - 1];
        var grown := task.event.messages + [m];
        var merged := task.(event := ProcessMessage(grown));
        if m.mass then merged.(runNow := true)
        else if |grown| % U16 < limit then merged.(lastUpdated := now)
        else merged
  }

  /** `now` and `seen` are the two clock readings of a new task. */
  function Taken(tasks: Tasks, d: Data, now: int, seen: int, limit: nat): Tasks {
    var key := KeyOf(d);
    tasks[key := if key in tasks then Merged(tasks[key], d.event, now, limit) else Task(d.event, false, now, seen)]
  }

  // ----- The system -----

  datatype Handed = Handed(key: Key, event: AckEvent)

  /** Where a message is: in the queue, in a worker's task for its key, or in an entry of the handler's log. */
  datatype Place = Queued | Held(worker: nat) | Done(entry: nat)

  /**
   `accepted` are all events the queue ever took, in order; the first `popped` have been taken
   out again. `place` follows each accepted event's message.
   */
  datatype World = World(
    accepted: seq<Data>, popped: nat, workers: map<nat, Tasks>, log: seq<Handed>, place: seq<Place>, limit: nat)

  datatype Step =
    | Push(d: Data)
    | Take(worker: nat, now: int, seen: int)
    | Sweep(worker: nat, now: int, order: seq<Key>)

  function Initial(limit: nat): World {
    World([], 0, map[], [], [], limit)
  }

  function TasksOf(w: World, worker: nat): Tasks {
    if worker in w.workers then w.workers[worker] else map[]
  }

  function QueueOf(w: World): seq<Data>
    requires w.popped <= |w.accepted|
  {
    w.accepted[w.popped..]
  }

  /** Events bear the ticket they will be accepted under; nothing else is asked of them. */
  predicate Tagged(d: Data, ticket: nat) {
    d.event.ProcessMessage? ==>
      forall i :: 0 <= i < |d.event.messages| ==> d.event.messages[i].ticket == ticket
  }

  predicate Single(d: Data) {
    d.event.ProcessMessage? && |d.event.messages| == 1
  }

  function Committed(w: World, worker: nat, key: Key): World {
    var tasks := TasksOf(w, worker);
    if key !in tasks then w
    else
      w.(workers := w.workers[worker := tasks - {key}],
         log := w.log + [Handed(key, tasks[key].event)],
         place := Moved(w, worker, key))
  }

  function Moved(w: World, worker: nat, key: Key): seq<Place> {
    seq(|w.place|, t requires 0 <= t < |w.place| =>
      if w.place[t] == Held(worker) && t < |w.accepted| && KeyOf(w.accepted[t]) == key then Done(|w.log|)
      else w.place[t])
  }

  function Swept(w: World, worker: nat, order: seq<Key>): World
    decreases |order|
  {
    if order == [] then w else Committed(Swept(w, worker, order[..|order| - 1]), worker, order[|order| - 1])
  }

  function Next(w: World, step: Step): World {
    match step
    case Push(d) =>
      if w.popped + QUEUE_CAPACITY <= |w.accepted| then w
      else w.(accepted := w.accepted + [d], place := w.place + [Queued])
    case Take(worker, now, seen) =>
      if w.popped < |w.accepted| && w.popped < |w.place| then
        w.(popped := w.popped + 1,
           workers := w.workers[worker := Taken(TasksOf(w, worker), w.accepted[w.popped], now, seen, w.limit)],
           place := w.place[w.popped := Held(worker)])
      else w
    case Sweep(worker, now, order) => Swept(w, worker, order)
  }

  ghost predicate DueKeys(tasks: Tasks, now: int, order: seq<Key>) {
    && (forall i, j :: 0 <= i < j < |order| ==> order[i] != order[j])
    && (forall key :: key in order <==> key in tasks && ShouldRun(tasks[key], now))
  }

  ghost predicate Possible(w: World, step: Step) {
    match step
    case Push(d) => Tagged(d, |w.accepted|)
    case Take(_, now, seen) => w.popped < |w.accepted| && now <= seen
    case Sweep(worker, now, order) => DueKeys(TasksOf(w, worker), now, order)
  }

  function Run(w: World, steps: seq<Step>): World
    decreases |steps|
  {
    if steps == [] then w else Next(Run(w, steps[..|steps| - 1]), steps[|steps| - 1])
  }

  ghost predicate IsRun(w: World, steps: seq<Step>)
    decreases |steps|
  {
    steps == [] ||
    (IsRun(w, steps[..|steps| - 1]) && Possible(Run(w, steps[..|steps| - 1]), steps[|steps| - 1]))
  }

  // ----- Accounting for every message -----

  predicate Occurs(event: AckEvent, ticket: nat) {
    event.ProcessMessage? && exists i :: 0 <= i < |event.messages| && event.messages[i].ticket == ticket
  }

  /** A batch for `key`: messages in queue order, each from an event for that key, a single message only once. */
  ghost predicate Batch(accepted: seq<Data>, popped: nat, key: Key, event: AckEvent) {
    && popped <= |accepted|
    && event.ProcessMessage? == key.process
    && (event.ProcessMessage? ==>
          && (forall i :: 0 <= i < |event.messages| ==> Genuine(accepted, popped, key, event.messages[i]))
          && (forall i, j :: 0 <= i < j < |event.messages| ==> InOrder(accepted, event.messages[i], event.messages[j])))
  }

  ghost predicate Genuine(accepted: seq<Data>, popped: nat, key: Key, m: Item) {
    && m.ticket < popped <= |accepted|
    && KeyOf(accepted[m.ticket]) == key
    && accepted[m.ticket].event.ProcessMessage?
    && m in accepted[m.ticket].event.messages
  }

  ghost predicate InOrder(accepted: seq<Data>, a: Item, b: Item) {
    a.ticket < b.ticket || (a.ticket == b.ticket < |accepted| && !Single(accepted[a.ticket]))
  }

  /** The place of ticket `t` is where its message is. */
  ghost predicate Placed(w: World, t: nat)
    requires t < |w.accepted| && t < |w.place|
  {
    var key := KeyOf(w.accepted[t]);
    match w.place[t]
    case Queued => t >= w.popped
    case Held(worker) => t < w.popped && key in TasksOf(w, worker) && Occurs(TasksOf(w, worker)[key].event, t)
    case Done(j) => t < w.popped && j < |w.log| && w.log[j].key == key && Occurs(w.log[j].event, t)
  }

  /** Whatever a task or a log entry holds is recorded as being there. */
  ghost predicate Recorded(w: World, event: AckEvent, place: Place) {
    event.ProcessMessage? ==>
      forall i :: 0 <= i < |event.messages| ==>
        var t := event.messages[i].ticket;
        t < |w.accepted| && t < |w.place| && (Single(w.accepted[t]) ==> w.place[t] == place)
  }

  ghost predicate TaskOk(w: World, worker: nat, key: Key)
    requires key in TasksOf(w, worker)
  {
    var event := TasksOf(w, worker)[key].event;
    Batch(w.accepted, w.popped, key, event) && Recorded(w, event, Held(worker))
  }

  ghost predicate LogOk(w: World, j: nat)
    requires j < |w.log|
  {
    Batch(w.accepted, w.popped, w.log[j].key, w.log[j].event) && Recorded(w, w.log[j].event, Done(j))
  }

  ghost predicate Invariant(w: World) {
    && |w.place| == |w.accepted| && w.popped <= |w.accepted| <= w.popped + QUEUE_CAPACITY
    && (forall t :: 0 <= t < |w.accepted| ==> Tagged(w.accepted[t], t))
    && (forall t :: 0 <= t < |w.accepted| && Single(w.accepted[t]) ==> Placed(w, t))
    && (forall worker, key :: key in TasksOf(w, worker) ==> TaskOk(w, worker, key))
    && (forall j :: 0 <= j < |w.log| ==> LogOk(w, j))
  }

  // ----- Each step keeps it -----

  lemma BatchGrows(a: seq<Data>, p: nat, b: seq<Data>, q: nat, key: Key, event: AckEvent)
    requires Batch(a, p, key, event) && p <= q <= |b| && |a| <= |b| && b[..|a|] == a
    ensures Batch(b, q, key, event)
  {
    if event.ProcessMessage? {
      forall t | 0 <= t < |a| ensures b[t] == a[t] {
        assert b[..|a|][t] == b[t];
      }
      forall i | 0 <= i < |event.messages| ensures Genuine(b, q, key, event.messages[i]) {
        assert Genuine(a, p, key, event.messages[i]);
      }
      forall i, j | 0 <= i < j < |event.messages| ensures InOrder(b, event.messages[i], event.messages[j]) {
        assert InOrder(a, event.messages[i], event.messages[j]);
      }
    }
  }

  lemma PushKeeps(w: World, d: Data)
    requires Invariant(w) && Tagged(d, |w.accepted|)
    ensures Invariant(Next(w, Push(d)))
  {
    var v := Next(w, Push(d));
    if v != w {
      assert v.accepted[..|w.accepted|] == w.accepted;
      forall t | 0 <= t < |v.accepted| && Single(v.accepted[t]) ensures Placed(v, t) {
        if t < |w.accepted| {
          assert Placed(w, t);
        }
      }
      forall worker, key | key in TasksOf(v, worker) ensures TaskOk(v, worker, key) {
        assert TaskOk(w, worker, key);
        BatchGrows(w.accepted, w.popped, v.accepted, v.popped, key, TasksOf(w, worker)[key].event);
      }
      forall j | 0 <= j < |v.log| ensures LogOk(v, j) {
        assert LogOk(w, j);
        BatchGrows(w.accepted, w.popped, v.accepted, v.popped, w.log[j].key, w.log[j].event);
      }
    }
  }

  /** A taken event goes to the end of its key's batch. */
  lemma TakenBatch(w: World, worker: nat, now: int, seen: int)
    requires Invariant(w) && w.popped < |w.accepted|
    ensures var v := Next(w, Take(worker, now, seen));
      var key := KeyOf(w.accepted[w.popped]);
      && key in TasksOf(v, worker) && TaskOk(v, worker, key)
      && (Single(w.accepted[w.popped]) ==> Occurs(TasksOf(v, worker)[key].event, w.popped))
      && (key in TasksOf(w, worker) ==>
            forall t :: Occurs(TasksOf(w, worker)[key].event, t) ==> Occurs(TasksOf(v, worker)[key].event, t))
  {
    var d, v := w.accepted[w.popped], Next(w, Take(worker, now, seen));
    var key := KeyOf(d);
    var after := TasksOf(v, worker)[key].event;
    if key in TasksOf(w, worker) {
      assert TaskOk(w, worker, key);
      MergedBatch(w, worker, d, now, v);
    } else {
      assert after == d.event;
      if Single(d) {
        assert d.event.messages[0].ticket == w.popped;
      }
    }
  }

  lemma MergedBatch(w: World, worker: nat, d: Data, now: int, v: World)
    requires Invariant(w) && w.popped < |w.accepted| && d == w.accepted[w.popped]
    requires KeyOf(d) in TasksOf(w, worker) && TaskOk(w, worker, KeyOf(d))
    requires v.accepted == w.accepted && v.popped == w.popped + 1 && v.place == w.place[w.popped := Held(worker)]
    ensures var before := TasksOf(w, worker)[KeyOf(d)].event;
      var after := Merged(TasksOf(w, worker)[KeyOf(d)], d.event, now, w.limit).event;
      && Batch(v.accepted, v.popped, KeyOf(d), after) && Recorded(v, after, Held(worker))
      && (Single(d) ==> Occurs(after, w.popped))
      && forall t :: Occurs(before, t) ==> Occurs(after, t)
  {
    var key := KeyOf(d);
    var before := TasksOf(w, worker)[key].event;
    var after := Merged(TasksOf(w, worker)[key], d.event, now, w.limit).event;
    BatchGrows(w.accepted, w.popped, v.accepted, v.popped, key, before);
    if d.event.ProcessMessage? && d.event.messages != [] {
      var m := d.event.messages[|d.event.messages| - 1];
      assert after.messages == before.messages + [m];
      assert Genuine(v.accepted, v.popped, key, m);
      forall i | 0 <= i < |after.messages| ensures Genuine(v.accepted, v.popped, key, after.messages[i]) {
        if i < |before.messages| {
          assert Genuine(v.accepted, v.popped, key, before.messages[i]);
        }
      }
      forall i, j | 0 <= i < j < |after.messages|
        ensures InOrder(v.accepted, after.messages[i], after.messages[j])
      {
        assert Genuine(w.accepted, w.popped, key, before.messages[i]);
        if j < |before.messages| {
          assert InOrder(v.accepted, before.messages[i], before.messages[j]);
        }
      }
      assert after.messages[|before.messages|] == m;
      forall t | Occurs(before, t) ensures Occurs(after, t) {
        var i :| 0 <= i < |before.messages| && before.messages[i].ticket == t;
        assert after.messages[i].ticket == t;
      }
    }
  }

  lemma TakeKeeps(w: World, worker: nat, now: int, seen: int)
    requires Invariant(w) && w.popped < |w.accepted|
    ensures Invariant(Next(w, Take(worker, now, seen)))
  {
    var v := Next(w, Take(worker, now, seen));
    var mine := KeyOf(w.accepted[w.popped]);
    TakenBatch(w, worker, now, seen);
    forall t | 0 <= t < |v.accepted| && Single(v.accepted[t]) ensures Placed(v, t) {
      assert Placed(w, t);
    }
    forall other, key | key in TasksOf(v, other) ensures TaskOk(v, other, key) {
      if other != worker || key != mine {
        assert TaskOk(w, other, key);
        BatchGrows(w.accepted, w.popped, v.accepted, v.popped, key, TasksOf(w, other)[key].event);
        StillRecorded(w, v, key, TasksOf(w, other)[key].event, Held(other));
      }
    }
    forall j | 0 <= j < |v.log| ensures LogOk(v, j) {
      assert LogOk(w, j);
      BatchGrows(w.accepted, w.popped, v.accepted, v.popped, w.log[j].key, w.log[j].event);
      StillRecorded(w, v, w.log[j].key, w.log[j].event, Done(j));
    }
  }

  /** Moving the ticket just taken does not touch a batch of earlier tickets. */
  lemma StillRecorded(w: World, v: World, key: Key, event: AckEvent, place: Place)
    requires Batch(w.accepted, w.popped, key, event) && Recorded(w, event, place)
    requires v.accepted == w.accepted && |v.place| == |w.place|
    requires forall t :: 0 <= t < w.popped && t < |w.place| ==> v.place[t] == w.place[t]
    ensures Recorded(v, event, place)
  {
    if event.ProcessMessage? {
      forall i | 0 <= i < |event.messages|
        ensures var t := event.messages[i].ticket;
          t < |v.accepted| && t < |v.place| && (Single(v.accepted[t]) ==> v.place[t] == place)
      {
        assert Genuine(w.accepted, w.popped, key, event.messages[i]);
      }
    }
  }

  lemma CommitKeeps(w: World, worker: nat, key: Key)
    requires Invariant(w)
    ensures Invariant(Committed(w, worker, key))
  {
    var v := Committed(w, worker, key);
    if key in TasksOf(w, worker) {
      assert TaskOk(w, worker, key);
      forall t | 0 <= t < |v.accepted| && Single(v.accepted[t]) ensures Placed(v, t) {
        assert Placed(w, t);
      }
      forall other, k | k in TasksOf(v, other) ensures TaskOk(v, other, k) {
        assert TaskOk(w, other, k);
        CommitKeepsRecord(w, worker, key, k, TasksOf(w, other)[k].event, Held(other));
      }
      forall j | 0 <= j < |v.log| ensures LogOk(v, j) {
        if j < |w.log| {
          assert LogOk(w, j);
          CommitKeepsRecord(w, worker, key, w.log[j].key, w.log[j].event, Done(j));
        } else {
          CommitRecords(w, worker, key);
        }
      }
    }
  }

  lemma CommitKeepsRecord(w: World, worker: nat, key: Key, other: Key, event: AckEvent, place: Place)
    requires Batch(w.accepted, w.popped, other, event) && Recorded(w, event, place)
    requires key in TasksOf(w, worker) && (place == Held(worker) ==> other != key)
    ensures Recorded(Committed(w, worker, key), event, place)
  {
    var v := Committed(w, worker, key);
    if event.ProcessMessage? {
      forall i | 0 <= i < |event.messages|
        ensures var t := event.messages[i].ticket;
          t < |v.accepted| && t < |v.place| && (Single(v.accepted[t]) ==> v.place[t] == place)
      {
        assert Genuine(w.accepted, w.popped, other, event.messages[i]);
      }
    }
  }

  lemma CommitRecords(w: World, worker: nat, key: Key)
    requires key in TasksOf(w, worker) && TaskOk(w, worker, key)
    ensures Recorded(Committed(w, worker, key), TasksOf(w, worker)[key].event, Done(|w.log|))
  {
    var event, v := TasksOf(w, worker)[key].event, Committed(w, worker, key);
    if event.ProcessMessage? {
      forall i | 0 <= i < |event.messages|
        ensures var t := event.messages[i].ticket;
          t < |v.accepted| && t < |v.place| && (Single(v.accepted[t]) ==> v.place[t] == Done(|w.log|))
      {
        assert Genuine(w.accepted, w.popped, key, event.messages[i]);
      }
    }
  }

  lemma {:induction false} SweepKeeps(w: World, worker: nat, order: seq<Key>)
    requires Invariant(w)
    ensures Invariant(Swept(w, worker, order))
    decreases |order|
  {
    if order != [] {
      SweepKeeps(w, worker, order[..|order| - 1]);
      CommitKeeps(Swept(w, worker, order[..|order| - 1]), worker, order[|order| - 1]);
    }
  }

  /** In every run each batch is in queue order and every message is recorded where it is. */
  lemma {:induction false} EveryRunIsAccounted(limit: nat, steps: seq<Step>)
    requires IsRun(Initial(limit), steps)
    ensures Invariant(Run(Initial(limit), steps))
    decreases |steps|
  {
    if steps != [] {
      var init := steps[..|steps| - 1];
      EveryRunIsAccounted(limit, init);
      var w := Run(Initial(limit), init);
      match steps[|steps| - 1] {
        case Push(d) => PushKeeps(w, d);
        case Take(worker, now, seen) => TakeKeeps(w, worker, now, seen);
        case Sweep(worker, now, order) => SweepKeeps(w, worker, order);
      }
    }
  }

  ghost predicate HeldBy(w: World, worker: nat, key: Key, t: nat) {
    key in TasksOf(w, worker) && Occurs(TasksOf(w, worker)[key].event, t)
  }

  /** A log entry or a task holds ticket `t` at position `i`. */
  ghost predicate Holds(event: AckEvent, i: nat, t: nat) {
    event.ProcessMessage? && i < |event.messages| && event.messages[i].ticket == t
  }

  /** The handler gets a single-message event at one position of one batch at most, and it is the message queued. */
  lemma HandedAtMostOnce(limit: nat, steps: seq<Step>, t: nat, j: nat, i: nat, j': nat, i': nat)
    requires IsRun(Initial(limit), steps)
    requires var w := Run(Initial(limit), steps);
      && t < |w.accepted| && Single(w.accepted[t]) && j < |w.log| && j' < |w.log|
      && Holds(w.log[j].event, i, t) && Holds(w.log[j'].event, i', t)
    ensures j == j' && i == i'
    ensures var w := Run(Initial(limit), steps);
      && w.log[j].key == KeyOf(w.accepted[t])
      && w.log[j].event.messages[i] == w.accepted[t].event.messages[0]
  {
    EveryRunIsAccounted(limit, steps);
    var w := Run(Initial(limit), steps);
    assert LogOk(w, j) && LogOk(w, j');
    assert w.place[w.log[j].event.messages[i].ticket] == Done(j);
    assert w.place[w.log[j'].event.messages[i'].ticket] == Done(j');
    var batch := w.log[j].event.messages;
    assert i < i' ==> InOrder(w.accepted, batch[i], batch[i']);
    assert i' < i ==> InOrder(w.accepted, batch[i'], batch[i]);
    assert Genuine(w.accepted, w.popped, w.log[j].key, batch[i]);
  }

  /** A single-message event is still queued, in one worker's batch for its key, or in the log; never two of these. */
  lemma MessageIsSomewhere(limit: nat, steps: seq<Step>, t: nat)
    requires IsRun(Initial(limit), steps)
    requires t < |Run(Initial(limit), steps).accepted| && Single(Run(Initial(limit), steps).accepted[t])
    ensures var w := Run(Initial(limit), steps);
      var key := KeyOf(w.accepted[t]);
      && (t < w.popped ==>
            || (exists worker :: HeldBy(w, worker, key, t))
            || (exists j :: 0 <= j < |w.log| && w.log[j].key == key && Occurs(w.log[j].event, t)))
      && (forall worker, k, j :: HeldBy(w, worker, k, t) && 0 <= j < |w.log| ==> !Occurs(w.log[j].event, t))
      && (forall a, k, b, l :: HeldBy(w, a, k, t) && HeldBy(w, b, l, t) ==> a == b && k == l)
      && (t >= w.popped ==> forall worker, k :: !HeldBy(w, worker, k, t))
  {
    EveryRunIsAccounted(limit, steps);
    var w := Run(Initial(limit), steps);
    assert Placed(w, t);
    assert w.place[t].Held? ==> HeldBy(w, w.place[t].worker, KeyOf(w.accepted[t]), t);
    forall worker, k | HeldBy(w, worker, k, t)
      ensures w.place[t] == Held(worker) && k == KeyOf(w.accepted[t])
    {
      assert TaskOk(w, worker, k);
      OccursRecorded(w, k, TasksOf(w, worker)[k].event, Held(worker), t);
    }
    forall j | 0 <= j < |w.log| && Occurs(w.log[j].event, t) ensures w.place[t] == Done(j) {
      assert LogOk(w, j);
      OccursRecorded(w, w.log[j].key, w.log[j].event, Done(j), t);
    }
  }

  lemma OccursRecorded(w: World, key: Key, event: AckEvent, place: Place, t: nat)
    requires Batch(w.accepted, w.popped, key, event) && Recorded(w, event, place) && Occurs(event, t)
    ensures t < |w.accepted| && t < |w.place| && key == KeyOf(w.accepted[t])
    ensures Single(w.accepted[t]) ==> w.place[t] == place
  {
    var i :| 0 <= i < |event.messages| && event.messages[i].ticket == t;
    assert Genuine(w.accepted, w.popped, key, event.messages[i]);
  }

  // ----- When a batch is committed -----

  /** A sweep removes the keys it lists and leaves every other task as it is. */
  lemma {:induction false} SweptTasks(w: World, worker: nat, order: seq<Key>, other: nat, key: Key)
    ensures var before, after := TasksOf(w, other), TasksOf(Swept(w, worker, order), other);
      && (key in after <==> key in before && (other != worker || key !in order))
      && (key in after ==> after[key] == before[key])
    decreases |order|
  {
    if order != [] {
      SweptTasks(w, worker, order[..|order| - 1], other, key);
      assert order == order[..|order| - 1] + [order[|order| - 1]];
    }
  }

  /** The task for `key` is there throughout the run. */
  ghost predicate Stays(w: World, steps: seq<Step>, worker: nat, key: Key)
    decreases |steps|
  {
    key in TasksOf(Run(w, steps), worker) && (steps != [] ==> Stays(w, steps[..|steps| - 1], worker, key))
  }

  /** Every sweep of the worker leaves the task alone, so it cannot have been due. */
  lemma NotDueIfKept(w: World, step: Step, worker: nat, key: Key)
    requires Possible(w, step) && key in TasksOf(w, worker) && key in TasksOf(Next(w, step), worker)
    ensures TasksOf(Next(w, step), worker)[key].firstSeen == TasksOf(w, worker)[key].firstSeen
    ensures step.Sweep? && step.worker == worker ==> !ShouldRun(TasksOf(w, worker)[key], step.now)
    ensures step.Sweep? ==> TasksOf(Next(w, step), worker)[key] == TasksOf(w, worker)[key]
  {
    if step.Sweep? {
      SweptTasks(w, step.worker, step.order, worker, key);
    }
  }

  /**
   However often it is postponed, a batch does not outlive a sweep 31 seconds or more after it was
   first seen.
   */
  lemma {:induction false} DeadlineHolds(w: World, steps: seq<Step>, worker: nat, key: Key)
    requires IsRun(w, steps) && Stays(w, steps, worker, key)
    ensures key in TasksOf(w, worker)
    ensures var seen := TasksOf(w, worker)[key].firstSeen;
      && TasksOf(Run(w, steps), worker)[key].firstSeen == seen
      && forall i :: 0 <= i < |steps| && steps[i].Sweep? && steps[i].worker == worker ==> steps[i].now < seen + 31000
    decreases |steps|
  {
    if steps != [] {
      var init, last := steps[..|steps| - 1], steps[|steps| - 1];
      DeadlineHolds(w, init, worker, key);
      NotDueIfKept(Run(w, init), last, worker, key);
      forall i | 0 <= i < |steps| && steps[i].Sweep? && steps[i].worker == worker
        ensures steps[i].now < TasksOf(w, worker)[key].firstSeen + 31000
      {
        if i < |init| {
          assert steps[i] == init[i];
        }
      }
    }
  }

  ghost function BatchSize(w: World, worker: nat, key: Key): nat {
    if key in TasksOf(w, worker) && TasksOf(w, worker)[key].event.ProcessMessage?
    then |TasksOf(w, worker)[key].event.messages| else 0
  }

  lemma SizeStep(w: World, step: Step, worker: nat, key: Key)
    requires Possible(w, step) && key in TasksOf(w, worker) && key in TasksOf(Next(w, step), worker)
    requires key.process && TasksOf(w, worker)[key].event.ProcessMessage?
    ensures var before, after := TasksOf(w, worker)[key], TasksOf(Next(w, step), worker)[key];
      && after.event.ProcessMessage? && |before.event.messages| <= |after.event.messages|
      && Next(w, step).limit == w.limit
      && (w.limit <= |before.event.messages| && |after.event.messages| < U16 ==>
            after.lastUpdated == before.lastUpdated)
  {
    NotDueIfKept(w, step, worker, key);
    if step.Sweep? {
      SweptLimit(w, step.worker, step.order);
    }
  }

  lemma {:induction false} SweptLimit(w: World, worker: nat, order: seq<Key>)
    ensures Swept(w, worker, order).limit == w.limit
    decreases |order|
  {
    if order != [] {
      SweptLimit(w, worker, order[..|order| - 1]);
    }
  }

  /**
   Once a batch is at the size limit, and until it has 65536 messages, later messages no longer
   postpone it: it does not outlive a sweep 6 seconds or more after its last update.
   */
  lemma {:induction false} FullBatchNotPostponed(w: World, steps: seq<Step>, worker: nat, key: Key)
    requires IsRun(w, steps) && Stays(w, steps, worker, key) && key in TasksOf(w, worker)
    requires key.process && TasksOf(w, worker)[key].event.ProcessMessage?
    requires w.limit <= BatchSize(w, worker, key) && BatchSize(Run(w, steps), worker, key) < U16
    ensures var updated := TasksOf(w, worker)[key].lastUpdated;
      && TasksOf(Run(w, steps), worker)[key].lastUpdated == updated
      && forall i :: 0 <= i < |steps| && steps[i].Sweep? && steps[i].worker == worker ==> steps[i].now < updated + 6000
    decreases |steps|
  {
    GrowingBatch(w, steps, worker, key);
    if steps != [] {
      var init, last := steps[..|steps| - 1], steps[|steps| - 1];
      GrowingBatch(w, init, worker, key);
      SizeStep(Run(w, init), last, worker, key);
      FullBatchNotPostponed(w, init, worker, key);
      NotDueIfKept(Run(w, init), last, worker, key);
      forall i | 0 <= i < |steps| && steps[i].Sweep? && steps[i].worker == worker
        ensures steps[i].now < TasksOf(w, worker)[key].lastUpdated + 6000
      {
        if i < |init| {
          assert steps[i] == init[i];
        }
      }
    }
  }

  lemma {:induction false} GrowingBatch(w: World, steps: seq<Step>, worker: nat, key: Key)
    requires IsRun(w, steps) && Stays(w, steps, worker, key) && key in TasksOf(w, worker)
    requires key.process && TasksOf(w, worker)[key].event.ProcessMessage?
    ensures TasksOf(Run(w, steps), worker)[key].event.ProcessMessage?
    ensures BatchSize(w, worker, key) <= BatchSize(Run(w, steps), worker, key)
    ensures Run(w, steps).limit == w.limit
    decreases |steps|
  {
    if steps != [] {
      var init := steps[..|steps| - 1];
      GrowingBatch(w, init, worker, key);
      SizeStep(Run(w, init), steps[|steps| - 1], worker, key);
    }
  }

  /**
   A message postpones its batch if and only if it is no mass mention and the length it brings the
   batch to, counted modulo 65536, is below the limit; so with any limit above 0 the 65536th does.
   */
  lemma PostponesIff(task: Task, m: Item, now: int, limit: nat)
    requires task.event.ProcessMessage? && now != task.lastUpdated
    ensures Merged(task, ProcessMessage([m]), now, limit).lastUpdated != task.lastUpdated <==>
      !m.mass && (|task.event.messages| + 1) % 65536 < limit
    ensures |task.event.messages| == 65535 && !m.mass && limit > 0 ==>
      Merged(task, ProcessMessage([m]), now, limit).lastUpdated == now
  {
  }

  // ----- Exactly once -----

  ghost predicate InLog(w: World, t: nat) {
    exists j :: 0 <= j < |w.log| && Occurs(w.log[j].event, t)
  }

  lemma {:induction false} SweptLogGrows(w: World, worker: nat, order: seq<Key>)
    ensures |w.log| <= |Swept(w, worker, order).log| && Swept(w, worker, order).log[..|w.log|] == w.log
    decreases |order|
  {
    if order != [] {
      SweptLogGrows(w, worker, order[..|order| - 1]);
    }
  }

  lemma LogStays(w: World, step: Step, t: nat)
    requires InLog(w, t)
    ensures InLog(Next(w, step), t)
  {
    var v := Next(w, step);
    if step.Sweep? {
      SweptLogGrows(w, step.worker, step.order);
    }
    var j :| 0 <= j < |w.log| && Occurs(w.log[j].event, t);
    assert v.log[..|w.log|][j] == w.log[j];
    assert Occurs(v.log[j].event, t);
  }

  /** A swept key's task is in the log. */
  lemma {:induction false} SweptIsLogged(w: World, worker: nat, order: seq<Key>, key: Key, t: nat)
    requires key in order && HeldBy(w, worker, key, t)
    ensures InLog(Swept(w, worker, order), t)
    decreases |order|
  {
    var init, last := order[..|order| - 1], order[|order| - 1];
    var mid := Swept(w, worker, init);
    if key in init {
      SweptIsLogged(w, worker, init, key, t);
      var j :| 0 <= j < |mid.log| && Occurs(mid.log[j].event, t);
      assert Committed(mid, worker, last).log[j] == mid.log[j];
    } else {
      assert order == init + [last] && key == last;
      SweptTasks(w, worker, init, worker, key);
      assert Occurs(Committed(mid, worker, key).log[|mid.log|].event, t);
    }
  }

  /** The batch that holds a message, and when it was first seen. */
  ghost predicate WaitsSince(w: World, worker: nat, key: Key, t: nat, seen: int) {
    HeldBy(w, worker, key, t) && TasksOf(w, worker)[key].firstSeen == seen
  }

  /** A sweep of the worker 31 seconds or more after its batch was first seen. */
  predicate Overdue(step: Step, worker: nat, seen: int) {
    step.Sweep? && step.worker == worker && step.now >= seen + 31000
  }

  lemma TakeKeepsHeld(w: World, taker: nat, now: int, later: int, worker: nat, key: Key, t: nat, seen: int)
    requires Invariant(w) && w.popped < |w.accepted| && WaitsSince(w, worker, key, t, seen)
    ensures WaitsSince(Next(w, Take(taker, now, later)), worker, key, t, seen)
  {
    TakenBatch(w, taker, now, later);
    var v := Next(w, Take(taker, now, later));
    if taker != worker || key != KeyOf(w.accepted[w.popped]) {
      assert key in TasksOf(v, worker) && TasksOf(v, worker)[key] == TasksOf(w, worker)[key];
    }
  }

  /** A step leaves a held message where it is or hands it over, and an overdue sweep hands it over. */
  lemma HeldStep(w: World, step: Step, worker: nat, key: Key, t: nat, seen: int)
    requires Invariant(w) && Possible(w, step) && WaitsSince(w, worker, key, t, seen)
    ensures InLog(Next(w, step), t) || WaitsSince(Next(w, step), worker, key, t, seen)
    ensures Overdue(step, worker, seen) ==> InLog(Next(w, step), t)
  {
    match step {
      case Push(_) =>
        assert TasksOf(Next(w, step), worker) == TasksOf(w, worker);
      case Take(taker, now, later) => TakeKeepsHeld(w, taker, now, later, worker, key, t, seen);
      case Sweep(sweeper, now, order) =>
        SweptTasks(w, sweeper, order, worker, key);
        if sweeper == worker && key in order {
          SweptIsLogged(w, worker, order, key, t);
        }
    }
  }

  lemma {:induction false} RunPrefix(w: World, steps: seq<Step>, n: nat)
    requires IsRun(w, steps) && n <= |steps|
    ensures IsRun(w, steps[..n])
    decreases |steps|
  {
    if n == |steps| {
      assert steps[..n] == steps;
    } else {
      RunPrefix(w, steps[..|steps| - 1], n);
      assert steps[..|steps| - 1][..n] == steps[..n];
    }
  }

  /** One more step of a run, from its `p`-th world. */
  lemma StepOfRun(limit: nat, steps: seq<Step>, p: nat)
    requires IsRun(Initial(limit), steps) && p < |steps|
    ensures var w := Run(Initial(limit), steps[..p]);
      && Invariant(w) && Possible(w, steps[p])
      && Run(Initial(limit), steps[..p + 1]) == Next(w, steps[p])
  {
    RunPrefix(Initial(limit), steps, p + 1);
    assert steps[..p + 1][..p] == steps[..p];
    EveryRunIsAccounted(limit, steps[..p]);
  }

  /** Up to step `n` the message is waiting or handed over; after it, it is handed over. */
  ghost predicate Progress(w: World, p: nat, n: nat, worker: nat, key: Key, t: nat, seen: int) {
    InLog(w, t) || (p <= n && WaitsSince(w, worker, key, t, seen))
  }

  lemma ProgressOnce(w: World, step: Step, p: nat, n: nat, worker: nat, key: Key, t: nat, seen: int)
    requires Invariant(w) && Possible(w, step) && Progress(w, p, n, worker, key, t, seen)
    requires p == n ==> Overdue(step, worker, seen)
    ensures Progress(Next(w, step), p + 1, n, worker, key, t, seen)
  {
    if InLog(w, t) {
      LogStays(w, step, t);
    } else {
      HeldStep(w, step, worker, key, t, seen);
    }
  }

  lemma ProgressStep(limit: nat, steps: seq<Step>, p: nat, n: nat, worker: nat, key: Key, t: nat, seen: int)
    requires IsRun(Initial(limit), steps) && p < |steps| && n < |steps| && Overdue(steps[n], worker, seen)
    requires Progress(Run(Initial(limit), steps[..p]), p, n, worker, key, t, seen)
    ensures Progress(Run(Initial(limit), steps[..p + 1]), p + 1, n, worker, key, t, seen)
  {
    StepOfRun(limit, steps, p);
    ProgressOnce(Run(Initial(limit), steps[..p]), steps[p], p, n, worker, key, t, seen);
  }

  lemma {:induction false} EventuallyLogged(
    limit: nat, steps: seq<Step>, p: nat, n: nat, worker: nat, key: Key, t: nat, seen: int)
    requires IsRun(Initial(limit), steps) && p <= |steps| && n < |steps| && Overdue(steps[n], worker, seen)
    requires Progress(Run(Initial(limit), steps[..p]), p, n, worker, key, t, seen)
    ensures InLog(Run(Initial(limit), steps), t)
    decreases |steps| - p
  {
    if p == |steps| {
      assert steps[..p] == steps;
    } else {
      ProgressStep(limit, steps, p, n, worker, key, t, seen);
      EventuallyLogged(limit, steps, p + 1, n, worker, key, t, seen);
    }
  }

  /**
   A queued single-message event that a worker has taken is handed over exactly once: after that
   worker's first sweep 31 seconds or more after the batch was first seen it is at exactly one
   position of exactly one batch in the handler's log.
   */
  lemma HandedExactlyOnce(limit: nat, steps: seq<Step>, m: nat, n: nat, worker: nat, key: Key, t: nat, seen: int)
    returns (j: nat, i: nat)
    requires IsRun(Initial(limit), steps) && m <= n < |steps|
    requires WaitsSince(Run(Initial(limit), steps[..m]), worker, key, t, seen) && Overdue(steps[n], worker, seen)
    requires t < |Run(Initial(limit), steps).accepted| && Single(Run(Initial(limit), steps).accepted[t])
    ensures var log := Run(Initial(limit), steps).log;
      && j < |log| && Holds(log[j].event, i, t)
      && forall j': nat, i': nat :: j' < |log| && Holds(log[j'].event, i', t) ==> j' == j && i' == i
  {
    EventuallyLogged(limit, steps, m, n, worker, key, t, seen);
    var log := Run(Initial(limit), steps).log;
    j :| 0 <= j < |log| && Occurs(log[j].event, t);
    i :| 0 <= i < |log[j].event.messages| && log[j].event.messages[i].ticket == t;
    forall j': nat, i': nat | j' < |log| && Holds(log[j'].event, i', t) ensures j' == j && i' == i {
      HandedAtMostOnce(limit, steps, t, j', i', j, i);
    }
  }

  // ----- Mass mentions -----

  ghost predicate LaterMass(messages: seq<Item>) {
    exists i :: 1 <= i < |messages| && messages[i].mass
  }

  /** A task is flagged to run at once exactly if a message after its first is a mass mention. */
  ghost predicate FlagOk(task: Task) {
    task.runNow <==> task.event.ProcessMessage? && LaterMass(task.event.messages)
  }

  ghost predicate FlagsOk(w: World) {
    && (forall t :: w.popped <= t < |w.accepted| ==> Brief(w.accepted[t]))
    && (forall worker, key :: key in TasksOf(w, worker) ==>
          FlagOk(TasksOf(w, worker)[key]) && Started(TasksOf(w, worker)[key], key))
  }

  /** Events as the queue's callers build them: one message, or an acknowledgement. */
  predicate Brief(d: Data) {
    d.event.ProcessMessage? ==> |d.event.messages| == 1
  }

  ghost predicate Started(task: Task, key: Key) {
    task.event.ProcessMessage? == key.process && (key.process ==> task.event.messages != [])
  }

  lemma MergedFlag(task: Task, d: Data, now: int, limit: nat)
    requires FlagOk(task) && Started(task, KeyOf(d)) && Brief(d)
    ensures FlagOk(Merged(task, d.event, now, limit)) && Started(Merged(task, d.event, now, limit), KeyOf(d))
  {
    if d.event.ProcessMessage? {
      var before, m := task.event.messages, d.event.messages[0];
      var after := before + [m];
      if LaterMass(before) {
        var i :| 1 <= i < |before| && before[i].mass;
        assert after[i].mass;
      }
      if m.mass {
        assert after[|before|].mass;
      }
      if LaterMass(after) {
        var i :| 1 <= i < |after| && after[i].mass;
        assert i < |before| ==> before[i].mass;
      }
    }
  }

  lemma TakeKeepsFlags(w: World, taker: nat, now: int, seen: int)
    requires FlagsOk(w) && w.popped < |w.accepted| && w.popped < |w.place|
    ensures FlagsOk(Next(w, Take(taker, now, seen)))
  {
    var d, v := w.accepted[w.popped], Next(w, Take(taker, now, seen));
    assert Brief(d);
    forall worker, key | key in TasksOf(v, worker)
      ensures FlagOk(TasksOf(v, worker)[key]) && Started(TasksOf(v, worker)[key], key)
    {
      if worker != taker || key != KeyOf(d) {
        assert key in TasksOf(w, worker) && TasksOf(v, worker)[key] == TasksOf(w, worker)[key];
      } else if key in TasksOf(w, worker) {
        MergedFlag(TasksOf(w, worker)[key], d, now, w.limit);
      } else {
        assert TasksOf(v, worker)[key] == Task(d.event, false, now, seen);
      }
    }
  }

  lemma SweepKeepsFlags(w: World, sweeper: nat, now: int, order: seq<Key>)
    requires FlagsOk(w)
    ensures FlagsOk(Next(w, Sweep(sweeper, now, order)))
  {
    var v := Next(w, Sweep(sweeper, now, order));
    forall worker, key | key in TasksOf(v, worker)
      ensures FlagOk(TasksOf(v, worker)[key]) && Started(TasksOf(v, worker)[key], key)
    {
      SweptTasks(w, sweeper, order, worker, key);
    }
    SweptQueue(w, sweeper, order);
  }

  lemma PushKeepsFlags(w: World, d: Data)
    requires FlagsOk(w) && Brief(d)
    ensures FlagsOk(Next(w, Push(d)))
  {
    var v := Next(w, Push(d));
    forall worker, key | key in TasksOf(v, worker)
      ensures FlagOk(TasksOf(v, worker)[key]) && Started(TasksOf(v, worker)[key], key)
    {
      assert key in TasksOf(w, worker);
    }
  }

  lemma {:induction false} SweptQueue(w: World, worker: nat, order: seq<Key>)
    ensures Swept(w, worker, order).accepted == w.accepted && Swept(w, worker, order).popped == w.popped
    decreases |order|
  {
    if order != [] {
      SweptQueue(w, worker, order[..|order| - 1]);
    }
  }

  /** In every run a task is flagged to run at once if and only if a message after its first is a mass mention. */
  lemma {:induction false} MassMentionFlagIff(limit: nat, steps: seq<Step>)
    requires forall i :: 0 <= i < |steps| && steps[i].Push? ==> Brief(steps[i].d)
    ensures FlagsOk(Run(Initial(limit), steps))
    decreases |steps|
  {
    if steps != [] {
      MassMentionFlagIff(limit, steps[..|steps| - 1]);
      var w := Run(Initial(limit), steps[..|steps| - 1]);
      match steps[|steps| - 1] {
        case Push(d) => PushKeepsFlags(w, d);
        case Take(worker, now, seen) =>
          if w.popped < |w.accepted| && w.popped < |w.place| {
            TakeKeepsFlags(w, worker, now, seen);
          }
        case Sweep(worker, now, order) => SweepKeepsFlags(w, worker, now, order);
      }
    }
  }

  lemma FlagStays(w: World, step: Step, worker: nat, key: Key)
    requires Possible(w, step) && key in TasksOf(w, worker) && key in TasksOf(Next(w, step), worker)
    ensures TasksOf(w, worker)[key].runNow ==> TasksOf(Next(w, step), worker)[key].runNow
  {
    NotDueIfKept(w, step, worker, key);
  }

  /** A flagged task does not outlive any sweep of its worker. */
  lemma {:induction false} FlaggedTaskIsSwept(w: World, steps: seq<Step>, worker: nat, key: Key)
    requires IsRun(w, steps) && Stays(w, steps, worker, key)
    requires key in TasksOf(w, worker) && TasksOf(w, worker)[key].runNow
    ensures TasksOf(Run(w, steps), worker)[key].runNow
    ensures forall i :: 0 <= i < |steps| && steps[i].Sweep? ==> steps[i].worker != worker
    decreases |steps|
  {
    if steps != [] {
      var init, last := steps[..|steps| - 1], steps[|steps| - 1];
      FlaggedTaskIsSwept(w, init, worker, key);
      FlagStays(Run(w, init), last, worker, key);
      NotDueIfKept(Run(w, init), last, worker, key);
      forall i | 0 <= i < |steps| && steps[i].Sweep? ensures steps[i].worker != worker {
        if i < |init| {
          assert steps[i] == init[i];
        }
      }
    }
  }
}
