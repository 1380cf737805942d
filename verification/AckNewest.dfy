/** Acknowledgements: of those a worker has taken for a user's channel, the newest is the one handed over. */
module AckNewest {
  import opened AckModel

  /** Of the events for `key` recorded at `place`, the one accepted last is `t`. */
  ghost predicate NewestAt(w: World, key: Key, place: Place, t: nat) {
    && t < |w.accepted| && t < |w.place| && KeyOf(w.accepted[t]) == key && w.place[t] == place
    && forall u :: t < u < |w.accepted| && u < |w.place| && KeyOf(w.accepted[u]) == key ==> w.place[u] != place
  }

  ghost predicate HoldsNewest(w: World, key: Key, place: Place, event: AckEvent) {
    exists t: nat :: NewestAt(w, key, place, t) && event == w.accepted[t].event
  }

  /** An acknowledgement is queued, in the task for its key, or in a log entry for its key. */
  ghost predicate AckPlaced(w: World, t: nat)
    requires t < |w.accepted| && t < |w.place|
  {
    match w.place[t]
    case Queued => t >= w.popped
    case Held(worker) => t < w.popped && KeyOf(w.accepted[t]) in TasksOf(w, worker)
    case Done(j) => t < w.popped && j < |w.log| && w.log[j].key == KeyOf(w.accepted[t])
  }

  ghost predicate AcksOk(w: World) {
    && |w.place| == |w.accepted| && w.popped <= |w.accepted|
    && (forall t :: 0 <= t < |w.accepted| && w.accepted[t].event.AckMessage? ==> AckPlaced(w, t))
    && (forall worker, key :: key in TasksOf(w, worker) && !key.process ==>
          HoldsNewest(w, key, Held(worker), TasksOf(w, worker)[key].event))
    && (forall j :: 0 <= j < |w.log| && !w.log[j].key.process ==>
          HoldsNewest(w, w.log[j].key, Done(j), w.log[j].event))
  }

  lemma PushKeepsAcks(w: World, d: Data)
    requires AcksOk(w)
    ensures AcksOk(Next(w, Push(d)))
  {
    var v := Next(w, Push(d));
    if v != w {
      forall t | 0 <= t < |v.accepted| && v.accepted[t].event.AckMessage? ensures AckPlaced(v, t) {
        if t < |w.accepted| {
          assert AckPlaced(w, t);
        }
      }
      forall key, place, event | HoldsNewest(w, key, place, event) && place != Queued
        ensures HoldsNewest(v, key, place, event)
      {
        var t: nat :| NewestAt(w, key, place, t) && event == w.accepted[t].event;
        assert NewestAt(v, key, place, t);
      }
    }
  }

  /** The newest at a place stays so while nothing comes to that place for its key or leaves it. */
  lemma StaysNewest(w: World, v: World, key: Key, place: Place, event: AckEvent)
    requires v.accepted == w.accepted && |v.place| == |w.place|
    requires HoldsNewest(w, key, place, event)
    requires forall t :: 0 <= t < |w.place| && t < |w.accepted| && KeyOf(w.accepted[t]) == key ==>
      (v.place[t] == place <==> w.place[t] == place)
    ensures HoldsNewest(v, key, place, event)
  {
    var t: nat :| NewestAt(w, key, place, t) && event == w.accepted[t].event;
    assert NewestAt(v, key, place, t);
  }

  lemma TakenIsNewest(w: World, worker: nat, now: int, seen: int)
    requires AcksOk(w) && w.popped < |w.accepted| && w.accepted[w.popped].event.AckMessage?
    ensures var v, key := Next(w, Take(worker, now, seen)), KeyOf(w.accepted[w.popped]);
      key in TasksOf(v, worker) && HoldsNewest(v, key, Held(worker), TasksOf(v, worker)[key].event)
  {
    var v, key := Next(w, Take(worker, now, seen)), KeyOf(w.accepted[w.popped]);
    forall u | w.popped < u < |v.accepted| && KeyOf(v.accepted[u]) == key ensures v.place[u] != Held(worker) {
      assert AckPlaced(w, u);
    }
    assert NewestAt(v, key, Held(worker), w.popped);
  }

  lemma TakeKeepsAcks(w: World, worker: nat, now: int, seen: int)
    requires AcksOk(w) && w.popped < |w.accepted|
    ensures AcksOk(Next(w, Take(worker, now, seen)))
  {
    var d, v := w.accepted[w.popped], Next(w, Take(worker, now, seen));
    if d.event.AckMessage? {
      assert AckPlaced(w, w.popped);
      TakenIsNewest(w, worker, now, seen);
    }
    forall t | 0 <= t < |v.accepted| && v.accepted[t].event.AckMessage? ensures AckPlaced(v, t) {
      assert AckPlaced(w, t);
    }
    forall other, key | key in TasksOf(v, other) && !key.process
      ensures HoldsNewest(v, key, Held(other), TasksOf(v, other)[key].event)
    {
      if other != worker || key != KeyOf(d) {
        StaysNewest(w, v, key, Held(other), TasksOf(w, other)[key].event);
      }
    }
    forall j | 0 <= j < |v.log| && !v.log[j].key.process ensures HoldsNewest(v, v.log[j].key, Done(j), v.log[j].event) {
      StaysNewest(w, v, w.log[j].key, Done(j), w.log[j].event);
    }
  }

  lemma CommittedIsNewest(w: World, worker: nat, key: Key)
    requires AcksOk(w) && key in TasksOf(w, worker) && !key.process
    ensures HoldsNewest(Committed(w, worker, key), key, Done(|w.log|), TasksOf(w, worker)[key].event)
  {
    var v, event := Committed(w, worker, key), TasksOf(w, worker)[key].event;
    var t: nat :| NewestAt(w, key, Held(worker), t) && event == w.accepted[t].event;
    forall u | 0 <= u < |w.accepted| && KeyOf(w.accepted[u]) == key ensures w.place[u] != Done(|w.log|) {
      assert AckPlaced(w, u);
    }
    assert NewestAt(v, key, Done(|w.log|), t);
  }

  lemma CommitKeepsAcks(w: World, worker: nat, key: Key)
    requires AcksOk(w)
    ensures AcksOk(Committed(w, worker, key))
  {
    var v := Committed(w, worker, key);
    if key in TasksOf(w, worker) {
      forall t | 0 <= t < |v.accepted| && v.accepted[t].event.AckMessage? ensures AckPlaced(v, t) {
        assert AckPlaced(w, t);
      }
      forall other, k | k in TasksOf(v, other) && !k.process
        ensures HoldsNewest(v, k, Held(other), TasksOf(v, other)[k].event)
      {
        StaysNewest(w, v, k, Held(other), TasksOf(w, other)[k].event);
      }
      forall j | 0 <= j < |v.log| && !v.log[j].key.process
        ensures HoldsNewest(v, v.log[j].key, Done(j), v.log[j].event)
      {
        if j < |w.log| {
          StaysNewest(w, v, w.log[j].key, Done(j), w.log[j].event);
        } else {
          CommittedIsNewest(w, worker, key);
        }
      }
    }
  }

  lemma {:induction false} SweepKeepsAcks(w: World, worker: nat, order: seq<Key>)
    requires AcksOk(w)
    ensures AcksOk(Swept(w, worker, order))
    decreases |order|
  {
    if order != [] {
      SweepKeepsAcks(w, worker, order[..|order| - 1]);
      CommitKeepsAcks(Swept(w, worker, order[..|order| - 1]), worker, order[|order| - 1]);
    }
  }

  /**
   In every run each task and each log entry for acknowledgements holds the newest one recorded there, and every
   acknowledgement taken is recorded at its key's task or in a log entry for its key.
   */
  lemma {:induction false} NewestIsKept(limit: nat, steps: seq<Step>)
    requires IsRun(Initial(limit), steps)
    ensures AcksOk(Run(Initial(limit), steps))
    decreases |steps|
  {
    if steps != [] {
      NewestIsKept(limit, steps[..|steps| - 1]);
      var w := Run(Initial(limit), steps[..|steps| - 1]);
      match steps[|steps| - 1] {
        case Push(d) => PushKeepsAcks(w, d);
        case Take(worker, now, seen) => TakeKeepsAcks(w, worker, now, seen);
        case Sweep(worker, now, order) => SweepKeepsAcks(w, worker, order);
      }
    }
  }

  /** Log entry `j` is for the acknowledgement's key and carries it or a newer one. */
  ghost predicate Covers(w: World, j: nat, t: nat)
    requires t < |w.accepted|
  {
    && j < |w.log| && w.log[j].key == KeyOf(w.accepted[t])
    && exists u: nat :: t <= u < |w.accepted| && KeyOf(w.accepted[u]) == KeyOf(w.accepted[t])
         && w.log[j].event == w.accepted[u].event
  }

  /** So once its task has been committed, an acknowledgement or a newer one for its key has been handed over. */
  lemma NothingOlderIsHanded(limit: nat, steps: seq<Step>, t: nat)
    requires IsRun(Initial(limit), steps)
    requires var w := Run(Initial(limit), steps); t < w.popped <= |w.accepted| && w.accepted[t].event.AckMessage?
    ensures var w := Run(Initial(limit), steps);
      && |w.place| == |w.accepted|
      && match w.place[t]
         case Queued => false
         case Held(worker) => KeyOf(w.accepted[t]) in TasksOf(w, worker)
         case Done(j) => Covers(w, j, t)
  {
    NewestIsKept(limit, steps);
    var w := Run(Initial(limit), steps);
    assert AckPlaced(w, t);
    if w.place[t].Done? {
      var j, key := w.place[t].entry, KeyOf(w.accepted[t]);
      assert HoldsNewest(w, key, Done(j), w.log[j].event);
      var u: nat :| NewestAt(w, key, Done(j), u) && w.log[j].event == w.accepted[u].event;
    }
  }
}
