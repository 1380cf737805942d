/** One worker's loop over its private task map and the shared queue. */
module AckWorker {
  import opened Models
  import opened AckModel

  class AckQueue {
    var items: seq<Data>

    constructor ()
      ensures items == []
    {
      items := [];
    }

    /** A full queue drops the event. */
    method TryPush(d: Data) returns (ok: bool)
      modifies this
      ensures ok <==> old(|items|) < QUEUE_CAPACITY
      ensures items == if ok then old(items) + [d] else old(items)
    {
      ok := |items| < QUEUE_CAPACITY;
      if ok {
        items := items + [d];
      }
    }

    method TryPop() returns (d: Option<Data>)
      modifies this
      ensures d.None? <==> old(items) == []
      ensures d.Some? ==> old(items) == [d.value] + items
      ensures d.None? ==> items == []
    {
      if items == [] {
        return None;
      }
      d := Some(items[0]);
      items := items[1..];
    }
  }

  /** The tasks after taking `items`; `clock` gives the two readings for each of them. */
  ghost function TakenAll(tasks: Tasks, items: seq<Data>, clock: nat -> (int, int), limit: nat): Tasks
    decreases |items|
  {
    if items == [] then tasks
    else
      var n := |items| - 1;
      Taken(TakenAll(tasks, items[..n], clock, limit), items[n], clock(n).0, clock(n).1, limit)
  }

  ghost function Batches(tasks: Tasks, order: seq<Key>): seq<Handed>
    requires forall key :: key in order ==> key in tasks
  {
    if order == [] then []
    else Batches(tasks, order[..|order| - 1]) + [Handed(order[|order| - 1], tasks[order[|order| - 1]].event)]
  }

  class Worker {
    var tasks: Tasks

    constructor ()
      ensures tasks == map[]
    {
      tasks := map[];
    }

    /** Look for due tasks, in whatever order the map yields them. */
    method FindDue(now: int) returns (keys: seq<Key>)
      ensures DueKeys(tasks, now, keys)
    {
      keys := [];
      var rest := tasks.Keys;
      while rest != {}
        invariant rest <= tasks.Keys
        invariant forall i, j :: 0 <= i < j < |keys| ==> keys[i] != keys[j]
        invariant forall key :: key in keys <==> key in tasks && key !in rest && ShouldRun(tasks[key], now)
        decreases rest
      {
        var key :| key in rest;
        rest := rest - {key};
        if ShouldRun(tasks[key], now) {
          keys := keys + [key];
        }
      }
    }

    /** Commit every due task: each goes to the handler once, every other task stays as it is. */
    method CommitDue(now: int) returns (handed: seq<Handed>, ghost order: seq<Key>)
      modifies this
      ensures DueKeys(old(tasks), now, order)
      ensures handed == Batches(old(tasks), order)
      ensures tasks == old(tasks) - (set key | key in order)
    {
      ghost var before := tasks;
      var keys := FindDue(now);
      handed, order := [], keys;
      for i := 0 to |keys|
        invariant handed == Batches(before, keys[..i])
        invariant tasks == before - (set key | key in keys[..i])
      {
        assert keys[..i + 1] == keys[..i] + [keys[i]];
        if keys[i] in tasks {
          handed := handed + [Handed(keys[i], tasks[keys[i]].event)];
          tasks := tasks - {keys[i]};
        }
      }
      assert keys[..|keys|] == keys;
    }

    /** Put one event into its task. */
    method TakeOne(d: Data, now: int, seen: int, limit: nat)
      modifies this
      ensures tasks == Taken(old(tasks), d, now, seen, limit)
    {
      var key := KeyOf(d);
      if key in tasks {
        var task := tasks[key];
        match d.event {
          case ProcessMessage(arrived) =>
            if task.event.ProcessMessage? && arrived != [] {
              var m := arrived[|arrived| - 1];
              var existing := task.event.messages + [m];
              task := task.(event := ProcessMessage(existing));
              if m.mass {
                task := task.(runNow := true);
              } else if |existing| % U16 < limit {
                task := task.(lastUpdated := now);
              }
            }
          case AckMessage(_) =>
            task := task.(event := d.event, lastUpdated := now);
        }
        tasks := tasks[key := task];
      } else {
        tasks := tasks[key := Task(d.event, false, now, seen)];
      }
    }

    /** One turn of the loop with no other worker in between: commit what is due, then empty the queue. */
    method Turn(q: AckQueue, now: int, clock: nat -> (int, int), limit: nat)
      returns (handed: seq<Handed>, ghost order: seq<Key>)
      modifies this, q
      ensures DueKeys(old(tasks), now, order)
      ensures handed == Batches(old(tasks), order)
      ensures q.items == []
      ensures tasks == TakenAll(old(tasks) - (set key | key in order), old(q.items), clock, limit)
    {
      ghost var queued := q.items;
      handed, order := CommitDue(now);
      ghost var left := tasks;
      var n := 0;
      var next := q.TryPop();
      while next.Some?
        invariant n + |q.items| + (if next.Some? then 1 else 0) == |queued|
        invariant next.None? ==> q.items == []
        invariant (if next.Some? then [next.value] else []) + q.items == queued[n..]
        invariant tasks == TakenAll(left, queued[..n], clock, limit)
        decreases |q.items|, next.Some?
      {
        assert queued[n] == queued[n..][0] == next.value;
        assert queued[..n + 1][..n] == queued[..n];
        TakeOne(next.value, clock(n).0, clock(n).1, limit);
        n := n + 1;
        assert queued[n - 1..][1..] == queued[n..];
        next := q.TryPop();
      }
      assert queued[..n] == queued;
    }
  }

  /** The loop's sweep is the system's: same tasks left, same batches handed over. */
  lemma SweepMatchesWorker(w: World, worker: nat, order: seq<Key>)
    requires forall i, j :: 0 <= i < j < |order| ==> order[i] != order[j]
    requires forall key :: key in order ==> key in TasksOf(w, worker)
    ensures TasksOf(Swept(w, worker, order), worker) == TasksOf(w, worker) - (set key | key in order)
    ensures Swept(w, worker, order).log == w.log + Batches(TasksOf(w, worker), order)
  {
    forall key
      ensures var before, after := TasksOf(w, worker), TasksOf(Swept(w, worker, order), worker);
        && (key in after <==> key in before && key !in order)
        && (key in after ==> after[key] == before[key])
    {
      SweptTasks(w, worker, order, worker, key);
    }
    SweptLog(w, worker, order);
  }

  lemma {:induction false} SweptLog(w: World, worker: nat, order: seq<Key>)
    requires forall i, j :: 0 <= i < j < |order| ==> order[i] != order[j]
    requires forall key :: key in order ==> key in TasksOf(w, worker)
    ensures Swept(w, worker, order).log == w.log + Batches(TasksOf(w, worker), order)
    decreases |order|
  {
    if order != [] {
      var init, last := order[..|order| - 1], order[|order| - 1];
      SweptLog(w, worker, init);
      SweptTasks(w, worker, init, worker, last);
      assert last in order && last !in init;
    }
  }

  /** `n` takes in a row by one worker. */
  ghost function TakeSteps(worker: nat, clock: nat -> (int, int), n: nat): seq<Step> {
    if n == 0 then [] else TakeSteps(worker, clock, n - 1) + [Take(worker, clock(n - 1).0, clock(n - 1).1)]
  }

  /** One more take, of the next event in the queue. */
  lemma TakeMatchesWorker(w: World, v: World, worker: nat, clock: nat -> (int, int), n: nat)
    requires w.popped + n < |w.accepted| && v.accepted == w.accepted && v.popped == w.popped + n
    requires v.limit == w.limit && |v.place| == |v.accepted|
    requires TasksOf(v, worker) == TakenAll(TasksOf(w, worker), QueueOf(w)[..n], clock, w.limit)
    ensures var u := Next(v, Take(worker, clock(n).0, clock(n).1));
      && u.popped == w.popped + n + 1 && u.accepted == w.accepted && u.limit == w.limit && |u.place| == |v.place|
      && TasksOf(u, worker) == TakenAll(TasksOf(w, worker), QueueOf(w)[..n + 1], clock, w.limit)
  {
    assert QueueOf(w)[..n + 1][..n] == QueueOf(w)[..n];
    assert QueueOf(w)[n] == w.accepted[w.popped + n];
  }

  /** Emptying the queue is a run of take steps. */
  lemma {:induction false} TakesMatchWorker(w: World, worker: nat, clock: nat -> (int, int), n: nat)
    requires |w.place| == |w.accepted| && w.popped + n <= |w.accepted|
    requires forall i: nat :: clock(i).0 <= clock(i).1
    ensures var v := Run(w, TakeSteps(worker, clock, n));
      && IsRun(w, TakeSteps(worker, clock, n))
      && v.popped == w.popped + n && v.accepted == w.accepted && v.limit == w.limit && |v.place| == |w.place|
      && TasksOf(v, worker) == TakenAll(TasksOf(w, worker), QueueOf(w)[..n], clock, w.limit)
    decreases n
  {
    if n > 0 {
      TakesMatchWorker(w, worker, clock, n - 1);
      var steps := TakeSteps(worker, clock, n);
      assert steps[..|steps| - 1] == TakeSteps(worker, clock, n - 1);
      TakeMatchesWorker(w, Run(w, TakeSteps(worker, clock, n - 1)), worker, clock, n - 1);
    }
  }
}
