/** When a worker's tasks are committed, told from the times at which they were seen and updated. In milliseconds. */
module AckTiming {
  import opened AckModel

  // ----- The queue -----

  /** An event is taken in if and only if fewer than 10000 are waiting; it is then the last to be taken out. */
  lemma PushedIff(w: World, d: Data)
    requires |w.place| == |w.accepted| && w.popped <= |w.accepted|
    ensures var v := Next(w, Push(d));
      && QueueOf(v) == (if |QueueOf(w)| < 10000 then QueueOf(w) + [d] else QueueOf(w))
      && v.popped == w.popped && v.workers == w.workers && v.log == w.log
  {
  }

  /** A worker takes the event that has waited longest. */
  lemma TakenInOrder(w: World, worker: nat, now: int, seen: int)
    requires |w.place| == |w.accepted| && w.popped < |w.accepted|
    ensures var v := Next(w, Take(worker, now, seen));
      && QueueOf(v) == QueueOf(w)[1..]
      && KeyOf(QueueOf(w)[0]) in TasksOf(v, worker)
      && (forall other :: other != worker ==> TasksOf(v, other) == TasksOf(w, other))
      && (forall key :: key != KeyOf(QueueOf(w)[0]) ==>
            (key in TasksOf(v, worker) <==> key in TasksOf(w, worker))
            && (key in TasksOf(w, worker) ==> TasksOf(v, worker)[key] == TasksOf(w, worker)[key]))
  {
  }

  // ----- Due tasks -----

  /** Flagged, first seen 31 seconds ago, or not updated for six. */
  predicate Due(task: Task, now: int) {
    task.runNow || now - task.firstSeen >= 31000 || now - task.lastUpdated >= 6000
  }

  lemma DueIff(task: Task, now: int)
    ensures ShouldRun(task, now) <==> Due(task, now)
  {
  }

  /** A sweep hands over exactly its worker's due tasks, and leaves every other task as it is. */
  lemma SweptIffDue(w: World, worker: nat, now: int, order: seq<Key>, other: nat, key: Key)
    requires Possible(w, Sweep(worker, now, order)) && key in TasksOf(w, other)
    ensures var after := TasksOf(Next(w, Sweep(worker, now, order)), other);
      && (key in after <==> other != worker || !Due(TasksOf(w, other)[key], now))
      && (key in after ==> after[key] == TasksOf(w, other)[key])
  {
    SweptTasks(w, worker, order, other, key);
    DueIff(TasksOf(w, other)[key], now);
  }

  // ----- Acknowledgements -----

  /** Tasks for acknowledgements hold one, and are never flagged. */
  ghost predicate Unflagged(w: World) {
    && |w.place| == |w.accepted|
    && forall worker, key :: key in TasksOf(w, worker) && !key.process ==>
         TasksOf(w, worker)[key].event.AckMessage? && !TasksOf(w, worker)[key].runNow
  }

  lemma StepKeepsUnflagged(w: World, step: Step)
    requires Unflagged(w)
    ensures Unflagged(Next(w, step))
  {
    var v := Next(w, step);
    if step.Sweep? {
      SweptPlaces(w, step.worker, step.order);
      SweptQueue(w, step.worker, step.order);
    }
    forall worker, key | key in TasksOf(v, worker) && !key.process
      ensures TasksOf(v, worker)[key].event.AckMessage? && !TasksOf(v, worker)[key].runNow
    {
      match step {
        case Push(_) => assert key in TasksOf(w, worker);
        case Take(_, _, _) => TakeKeepsUnflagged(w, step, worker, key);
        case Sweep(sweeper, _, order) => SweptTasks(w, sweeper, order, worker, key);
      }
    }
  }

  lemma TakeKeepsUnflagged(w: World, step: Step, worker: nat, key: Key)
    requires Unflagged(w) && step.Take? && key in TasksOf(Next(w, step), worker) && !key.process
    ensures var task := TasksOf(Next(w, step), worker)[key]; task.event.AckMessage? && !task.runNow
  {
    var before, after := TasksOf(w, worker), TasksOf(Next(w, step), worker);
    if key in before {
      assert before[key].event.AckMessage? && !before[key].runNow;
    }
  }

  lemma {:induction false} SweptPlaces(w: World, worker: nat, order: seq<Key>)
    ensures |Swept(w, worker, order).place| == |w.place|
    decreases |order|
  {
    if order != [] {
      SweptPlaces(w, worker, order[..|order| - 1]);
    }
  }

  lemma {:induction false} AcksAreUnflagged(limit: nat, steps: seq<Step>)
    ensures Unflagged(Run(Initial(limit), steps))
    decreases |steps|
  {
    if steps != [] {
      AcksAreUnflagged(limit, steps[..|steps| - 1]);
      StepKeepsUnflagged(Run(Initial(limit), steps[..|steps| - 1]), steps[|steps| - 1]);
    }
  }

  /**
   In every run, once a worker has taken an acknowledgement at `now`, a sweep of that worker hands its task over if
   and only if it comes six seconds later, or 31 after the first acknowledgement of the task was seen.
   */
  lemma AckHandedWhen(limit: nat, steps: seq<Step>, worker: nat, now: int, seen: int, at: int, order: seq<Key>)
    requires var w := Run(Initial(limit), steps);
      && w.popped < |w.accepted| && w.accepted[w.popped].event.AckMessage?
      && Possible(Next(w, Take(worker, now, seen)), Sweep(worker, at, order))
    ensures var w := Run(Initial(limit), steps);
      var key, v := KeyOf(w.accepted[w.popped]), Next(w, Take(worker, now, seen));
      var first := if key in TasksOf(w, worker) then TasksOf(w, worker)[key].firstSeen else seen;
      key in TasksOf(Next(v, Sweep(worker, at, order)), worker) <==> at < now + 6000 && at < first + 31000
  {
    var w := Run(Initial(limit), steps);
    var key, v := KeyOf(w.accepted[w.popped]), Next(w, Take(worker, now, seen));
    AcksAreUnflagged(limit, steps);
    assert key in TasksOf(v, worker);
    SweptIffDue(v, worker, at, order, worker, key);
  }
}
