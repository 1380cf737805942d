/**
 Queueing a message takes two round trips: one that counts the send and reads
 the queue's depth, and one that pushes. Other operations may run in between.
 */
module SendInterleaving {
  import opened Models
  import opened Collections
  import opened DrainFilter
  import opened BrokerModel

  /** A send that passed its checks and has not pushed yet, with the counts it was given. */
  datatype Pending = Pending(
    sender: string, device: Device, m: Message, globalCount: nat, pairCount: nat, depth: nat)

  datatype System = System(store: Store, pending: seq<Pending>)

  datatype Step =
    | ReadStep(sender: string, device: Device, m: Message)
    | WriteStep(index: nat, now: int)
    | Atomic(op: Op)

  const START := System(EMPTY.store, [])

  function Counted(st: Store, sender: string, d: Device): Store {
    st.(senders := Bumped(st.senders, sender), pairs := Bumped(st.pairs, Pair(sender, d)))
  }

  function AfterRead(sys: System, sender: string, d: Device, m: Message): System {
    if |m.body| > MAX_MESSAGE_BYTES then sys
    else
      var counted := Counted(sys.store, sender, d);
      var p := Pending(sender, d, m, counted.senders[sender].count, counted.pairs[Pair(sender, d)].count,
                       |Messages(sys.store, d)|);
      if p.globalCount > RATE_MAX_GLOBAL || p.pairCount > RATE_MAX_PAIR || p.depth >= QUEUE_MAX_DEPTH then
        sys.(store := counted)
      else System(counted, sys.pending + [p])
  }

  /** An EXPIRE: it has no effect on a key that is gone. */
  function Expiring<K(==)>(counters: map<K, Counter>, k: K, now: int): map<K, Counter> {
    if k in counters then counters[k := counters[k].(expiry := Some(now + RATE_WINDOW))] else counters
  }

  function Written(st: Store, p: Pending, now: int): Store {
    var kept := if p.device in st.queues then st.queues[p.device].expiry else None;
    st.(senders := if p.globalCount == 1 then Expiring(st.senders, p.sender, now) else st.senders,
        pairs := if p.pairCount == 1 then Expiring(st.pairs, Pair(p.sender, p.device), now) else st.pairs,
        queues := st.queues[p.device := Queue(Messages(st, p.device) + [p.m],
                                              if p.depth == 0 then Some(now + QUEUE_TTL) else kept)])
  }

  predicate Possible(sys: System, step: Step) {
    match step
    case ReadStep(_, _, _) => true
    case WriteStep(i, _) => i < |sys.pending|
    case Atomic(op) => !op.Send?
  }

  function Next(sys: System, step: Step): System {
    match step
    case ReadStep(sender, d, m) => AfterRead(sys, sender, d, m)
    case WriteStep(i, now) =>
      if i < |sys.pending| then
        System(Written(sys.store, sys.pending[i], now), sys.pending[..i] + sys.pending[i + 1..])
      else sys
    case Atomic(op) => sys.(store := Apply(sys.store, op))
  }

  /** How many sends to a device are between their two steps. */
  function PendingTo(pending: seq<Pending>, d: Device): nat {
    if pending == [] then 0
    else PendingTo(pending[..|pending| - 1], d) + if pending[|pending| - 1].device == d then 1 else 0
  }

  ghost predicate Within(sys: System, k: nat) {
    forall d :: PendingTo(sys.pending, d) <= k
  }

  function End(sys: System, steps: seq<Step>): System
    decreases |steps|
  {
    if steps == [] then sys else Next(End(sys, steps[..|steps| - 1]), steps[|steps| - 1])
  }

  /** A run in which never more than `k` sends to one device are between their two steps. */
  ghost predicate IsRun(sys: System, steps: seq<Step>, k: nat)
    decreases |steps|
  {
    steps == [] ||
    (&& IsRun(sys, steps[..|steps| - 1], k)
     && Possible(End(sys, steps[..|steps| - 1]), steps[|steps| - 1])
     && Within(End(sys, steps), k))
  }

  // ----- The depth of a queue -----

  lemma {:induction false} PendingConcat(a: seq<Pending>, b: seq<Pending>, d: Device)
    ensures PendingTo(a + b, d) == PendingTo(a, d) + PendingTo(b, d)
    decreases |b|
  {
    if b == [] {
      assert a + b == a;
    } else {
      PendingConcat(a, b[..|b| - 1], d);
      assert (a + b)[..|a + b| - 1] == a + b[..|b| - 1];
    }
  }

  lemma PendingWithout(pending: seq<Pending>, i: nat, d: Device)
    requires i < |pending|
    ensures PendingTo(pending[..i] + pending[i + 1..], d)
         == PendingTo(pending, d) - if pending[i].device == d then 1 else 0
  {
    assert pending == pending[..i] + ([pending[i]] + pending[i + 1..]);
    PendingConcat(pending[..i], [pending[i]] + pending[i + 1..], d);
    PendingConcat([pending[i]], pending[i + 1..], d);
    PendingConcat(pending[..i], pending[i + 1..], d);
    assert PendingTo([pending[i]], d) == if pending[i].device == d then 1 else 0 by {
      assert [pending[i]][..0] == [];
    }
  }

  /** Messages queued for a device, with those about to be pushed to it. */
  ghost function Load(sys: System, d: Device): nat {
    |Messages(sys.store, d)| + PendingTo(sys.pending, d)
  }

  lemma ReadLoad(sys: System, sender: string, e: Device, m: Message, d: Device)
    ensures var after := AfterRead(sys, sender, e, m);
      Load(after, d) <= Load(sys, d) || Load(after, d) <= QUEUE_MAX_DEPTH - 1 + PendingTo(after.pending, d)
  {
    var after := AfterRead(sys, sender, e, m);
    assert Messages(after.store, d) == Messages(sys.store, d);
    if |after.pending| != |sys.pending| {
      var p := after.pending[|sys.pending|];
      assert after.pending == sys.pending + [p] && p.device == e;
      PendingConcat(sys.pending, [p], d);
      assert [p][..0] == [];
    }
  }

  lemma WriteLoad(sys: System, i: nat, now: int, d: Device)
    requires i < |sys.pending|
    ensures Load(Next(sys, WriteStep(i, now)), d) == Load(sys, d)
  {
    PendingWithout(sys.pending, i, d);
    var after := Next(sys, WriteStep(i, now));
    assert |Messages(after.store, d)| == |Messages(sys.store, d)| + if sys.pending[i].device == d then 1 else 0;
  }

  /** Only a read step can raise the load, and only from a depth below the limit. */
  lemma StepLoad(sys: System, step: Step, d: Device)
    requires Possible(sys, step)
    ensures var after := Next(sys, step);
      Load(after, d) <= Load(sys, d) || Load(after, d) <= QUEUE_MAX_DEPTH - 1 + PendingTo(after.pending, d)
  {
    match step {
      case ReadStep(sender, e, m) => ReadLoad(sys, sender, e, m, d);
      case WriteStep(i, now) => WriteLoad(sys, i, now, d);
      case Atomic(op) => OtherOpsNeverPush(sys.store, op, d);
    }
  }

  lemma OtherOpsNeverPush(st: Store, op: Op, d: Device)
    requires !op.Send?
    ensures |Messages(Apply(st, op), d)| <= |Messages(st, d)|
  {
  }

  /** With at most `k` sends between their steps, a queue holds at most 100 + k - 1 messages. */
  lemma {:induction false} QueueDepthBounded(steps: seq<Step>, k: nat, d: Device)
    requires IsRun(START, steps, k)
    ensures Load(End(START, steps), d) <= QUEUE_MAX_DEPTH + k - 1
    decreases |steps|
  {
    if steps != [] {
      var init := steps[..|steps| - 1];
      QueueDepthBounded(init, k, d);
      StepLoad(End(START, init), steps[|steps| - 1], d);
    }
  }

  // ----- Reaching the bound -----

  const TARGET := Device("r", "s")
  const NOTE := Message("", None)

  ghost predicate Fresh(st: Store, i: nat) {
    Name(i) !in st.senders && Pair(Name(i), TARGET) !in st.pairs
  }

  /** The target has `depth` messages and `waiting` pending sends; senders numbered from `from` on are new. */
  ghost predicate Loaded(sys: System, from: nat, waiting: nat, depth: nat) {
    && Registered(sys.store, TARGET)
    && (forall i :: from <= i ==> Fresh(sys.store, i))
    && |sys.pending| == waiting
    && (forall i :: 0 <= i < |sys.pending| ==> sys.pending[i].device == TARGET)
    && |Messages(sys.store, TARGET)| == depth
  }

  lemma OneStep(sys: System, steps: seq<Step>, step: Step, k: nat)
    ensures End(sys, steps + [step]) == Next(End(sys, steps), step)
    ensures IsRun(sys, steps, k) && Possible(End(sys, steps), step) && Within(Next(End(sys, steps), step), k)
      ==> IsRun(sys, steps + [step], k)
  {
    assert (steps + [step])[..|steps|] == steps;
  }

  lemma {:induction false} AllPending(pending: seq<Pending>, d: Device)
    requires forall i :: 0 <= i < |pending| ==> pending[i].device == TARGET
    ensures PendingTo(pending, d) <= |pending|
    decreases |pending|
  {
    if pending != [] {
      AllPending(pending[..|pending| - 1], d);
    }
  }

  lemma LoadedWithin(sys: System, from: nat, waiting: nat, depth: nat, k: nat)
    requires Loaded(sys, from, waiting, depth) && waiting <= k
    ensures Within(sys, k)
  {
    forall d ensures PendingTo(sys.pending, d) <= k {
      AllPending(sys.pending, d);
    }
  }

  lemma OneRead(sys: System, from: nat, waiting: nat, depth: nat)
    requires Loaded(sys, from, waiting, depth) && depth < QUEUE_MAX_DEPTH
    ensures var after := Next(sys, ReadStep(Name(from), TARGET, NOTE));
      Loaded(after, from + 1, waiting + 1, depth) && after.pending[waiting].depth == depth
  {
    assert Fresh(sys.store, from);
    var after := Next(sys, ReadStep(Name(from), TARGET, NOTE));
    forall i | from + 1 <= i
      ensures Fresh(after.store, i)
    {
      assert Fresh(sys.store, i) && |Name(i)| != |Name(from)|;
    }
  }

  lemma OneWrite(sys: System, from: nat, waiting: nat, depth: nat)
    requires Loaded(sys, from, waiting, depth) && waiting > 0
    ensures Loaded(Next(sys, WriteStep(0, 0)), from, waiting - 1, depth + 1)
  {
    var after := Next(sys, WriteStep(0, 0));
    forall i | from <= i ensures Fresh(after.store, i) {
      assert Fresh(sys.store, i);
    }
  }

  lemma ReadOnce(sys: System, steps: seq<Step>, from: nat, waiting: nat, depth: nat, k: nat)
    returns (more: seq<Step>)
    requires IsRun(sys, steps, k) && Loaded(End(sys, steps), from, waiting, depth)
    requires depth < QUEUE_MAX_DEPTH && waiting < k
    ensures IsRun(sys, more, k) && Loaded(End(sys, more), from + 1, waiting + 1, depth)
    ensures End(sys, more).pending[waiting].depth == depth
  {
    var step := ReadStep(Name(from), TARGET, NOTE);
    OneStep(sys, steps, step, k);
    OneRead(End(sys, steps), from, waiting, depth);
    LoadedWithin(Next(End(sys, steps), step), from + 1, waiting + 1, depth, k);
    more := steps + [step];
  }

  lemma WriteOnce(sys: System, steps: seq<Step>, from: nat, waiting: nat, depth: nat, k: nat)
    returns (more: seq<Step>)
    requires IsRun(sys, steps, k) && Loaded(End(sys, steps), from, waiting, depth)
    requires 0 < waiting <= k
    ensures IsRun(sys, more, k) && Loaded(End(sys, more), from, waiting - 1, depth + 1)
  {
    OneStep(sys, steps, WriteStep(0, 0), k);
    OneWrite(End(sys, steps), from, waiting, depth);
    LoadedWithin(Next(End(sys, steps), WriteStep(0, 0)), from, waiting - 1, depth + 1, k);
    more := steps + [WriteStep(0, 0)];
  }

  /** `n` sends that all read before any writes add `n` messages to a queue that is not full. */
  lemma Burst(sys: System, init: seq<Step>, from: nat, n: nat, depth: nat, k: nat) returns (steps: seq<Step>)
    requires IsRun(sys, init, k) && Loaded(End(sys, init), from, 0, depth) && depth < QUEUE_MAX_DEPTH && n <= k
    ensures IsRun(sys, steps, k) && Loaded(End(sys, steps), from + n, 0, depth + n)
  {
    steps := init;
    for i := 0 to n
      invariant IsRun(sys, steps, k) && Loaded(End(sys, steps), from + i, i, depth)
    {
      steps := ReadOnce(sys, steps, from + i, i, depth, k);
    }
    for i := 0 to n
      invariant IsRun(sys, steps, k) && Loaded(End(sys, steps), from + n, n - i, depth + i)
    {
      steps := WriteOnce(sys, steps, from + n, n - i, depth + i, k);
    }
  }

  /** `n` sends one after the other. */
  lemma Serial(sys: System, init: seq<Step>, n: nat, k: nat) returns (steps: seq<Step>)
    requires IsRun(sys, init, k) && Loaded(End(sys, init), 0, 0, 0) && n < QUEUE_MAX_DEPTH && 1 <= k
    ensures IsRun(sys, steps, k) && Loaded(End(sys, steps), n, 0, n)
  {
    steps := init;
    for i := 0 to n
      invariant IsRun(sys, steps, k) && Loaded(End(sys, steps), i, 0, i)
    {
      steps := Burst(sys, steps, i, 1, i, k);
    }
  }

  lemma Opened(k: nat)
    ensures var open := [Atomic(Register(TARGET.user, TARGET.session, "n", 0))];
      IsRun(START, open, k) && Loaded(End(START, open), 0, 0, 0)
  {
    var step := Atomic(Register(TARGET.user, TARGET.session, "n", 0));
    LoadedWithin(Next(START, step), 0, 0, 0, k);
    OneStep(START, [], step, k);
    assert [] + [step] == [step];
  }

  lemma Filled(k: nat) returns (steps: seq<Step>)
    requires 1 <= k
    ensures IsRun(START, steps, k)
    ensures Loaded(End(START, steps), QUEUE_MAX_DEPTH + k - 1, 0, QUEUE_MAX_DEPTH + k - 1)
  {
    Opened(k);
    var open := [Atomic(Register(TARGET.user, TARGET.session, "n", 0))];
    var serial := Serial(START, open, QUEUE_MAX_DEPTH - 1, k);
    steps := Burst(START, serial, QUEUE_MAX_DEPTH - 1, k, QUEUE_MAX_DEPTH - 1, k);
  }

  /** The bound is exact: some run within `k` leaves 100 + k - 1 messages in a queue. */
  lemma QueueDepthReached(k: nat) returns (steps: seq<Step>)
    requires 1 <= k
    ensures IsRun(START, steps, k)
    ensures |Messages(End(START, steps).store, TARGET)| == QUEUE_MAX_DEPTH + k - 1
  {
    steps := Filled(k);
  }

  // ----- The rate limits -----

  predicate AcceptsNow(sys: System, step: Step) {
    step.ReadStep? && Accepts(sys.store, step.sender, step.device, step.m)
  }

  /** How many sends of a run from `sender` to `recipient` were accepted. */
  ghost function AcceptedToUser(sys: System, steps: seq<Step>, pair: (string, string)): nat
    decreases |steps|
  {
    if steps == [] then 0
    else
      var init, last := steps[..|steps| - 1], steps[|steps| - 1];
      AcceptedToUser(sys, init, pair)
      + if AcceptsNow(End(sys, init), last) && Pair(last.sender, last.device) == pair then 1 else 0
  }

  ghost function AcceptedFrom(sys: System, steps: seq<Step>, sender: string): nat
    decreases |steps|
  {
    if steps == [] then 0
    else
      var init, last := steps[..|steps| - 1], steps[|steps| - 1];
      AcceptedFrom(sys, init, sender)
      + if AcceptsNow(End(sys, init), last) && last.sender == sender then 1 else 0
  }

  /** A counter does not go away during the run. */
  ghost predicate PairKept(sys: System, steps: seq<Step>, pair: (string, string))
    decreases |steps|
  {
    steps == [] ||
    (&& PairKept(sys, steps[..|steps| - 1], pair)
     && (pair in End(sys, steps[..|steps| - 1]).store.pairs ==> pair in End(sys, steps).store.pairs))
  }

  ghost predicate SenderKept(sys: System, steps: seq<Step>, sender: string)
    decreases |steps|
  {
    steps == [] ||
    (&& SenderKept(sys, steps[..|steps| - 1], sender)
     && (sender in End(sys, steps[..|steps| - 1]).store.senders ==> sender in End(sys, steps).store.senders))
  }

  function Min(a: nat, b: nat): nat {
    if a < b then a else b
  }

  /** No operation but the clock touches a counter, and the clock only deletes it. */
  lemma AtomicCounters(st: Store, op: Op)
    requires !op.Send?
    ensures forall p :: p in Apply(st, op).pairs ==> p in st.pairs && Apply(st, op).pairs[p] == st.pairs[p]
    ensures forall s :: s in Apply(st, op).senders ==> s in st.senders && Apply(st, op).senders[s] == st.senders[s]
  {
  }

  lemma WriteCounters(st: Store, w: Pending, now: int, pair: (string, string), sender: string)
    ensures Count(Written(st, w, now).pairs, pair) == Count(st.pairs, pair)
    ensures Count(Written(st, w, now).senders, sender) == Count(st.senders, sender)
  {
  }

  lemma PairStep(sys: System, step: Step, pair: (string, string))
    requires Possible(sys, step)
    ensures var after := Next(sys, step);
      (pair in sys.store.pairs ==> pair in after.store.pairs) ==>
        Min(RATE_MAX_PAIR, Count(after.store.pairs, pair)) >= Min(RATE_MAX_PAIR, Count(sys.store.pairs, pair))
          + if AcceptsNow(sys, step) && Pair(step.sender, step.device) == pair then 1 else 0
  {
    match step {
      case ReadStep(_, _, _) =>
      case WriteStep(i, now) => WriteCounters(sys.store, sys.pending[i], now, pair, "");
      case Atomic(op) => AtomicCounters(sys.store, op);
    }
  }

  lemma SenderStep(sys: System, step: Step, sender: string)
    requires Possible(sys, step)
    ensures var after := Next(sys, step);
      (sender in sys.store.senders ==> sender in after.store.senders) ==>
        Min(RATE_MAX_GLOBAL, Count(after.store.senders, sender))
          >= Min(RATE_MAX_GLOBAL, Count(sys.store.senders, sender))
          + if AcceptsNow(sys, step) && step.sender == sender then 1 else 0
  {
    match step {
      case ReadStep(_, _, _) =>
      case WriteStep(i, now) => WriteCounters(sys.store, sys.pending[i], now, ("", ""), sender);
      case Atomic(op) => AtomicCounters(sys.store, op);
    }
  }

  /** Between two resets of a pair's counter at most 30 sends are accepted, in any interleaving. */
  lemma {:induction false} PairRateBounded(sys: System, steps: seq<Step>, k: nat, pair: (string, string))
    requires IsRun(sys, steps, k) && PairKept(sys, steps, pair)
    ensures AcceptedToUser(sys, steps, pair) + Min(RATE_MAX_PAIR, Count(sys.store.pairs, pair))
         <= Min(RATE_MAX_PAIR, Count(End(sys, steps).store.pairs, pair))
    ensures AcceptedToUser(sys, steps, pair) <= RATE_MAX_PAIR
    decreases |steps|
  {
    if steps != [] {
      var init := steps[..|steps| - 1];
      PairRateBounded(sys, init, k, pair);
      PairStep(End(sys, init), steps[|steps| - 1], pair);
    }
  }

  /** Between two resets of a sender's counter at most 120 sends are accepted, in any interleaving. */
  lemma {:induction false} SenderRateBounded(sys: System, steps: seq<Step>, k: nat, sender: string)
    requires IsRun(sys, steps, k) && SenderKept(sys, steps, sender)
    ensures AcceptedFrom(sys, steps, sender) + Min(RATE_MAX_GLOBAL, Count(sys.store.senders, sender))
         <= Min(RATE_MAX_GLOBAL, Count(End(sys, steps).store.senders, sender))
    ensures AcceptedFrom(sys, steps, sender) <= RATE_MAX_GLOBAL
    decreases |steps|
  {
    if steps != [] {
      var init := steps[..|steps| - 1];
      SenderRateBounded(sys, init, k, sender);
      SenderStep(End(sys, init), steps[|steps| - 1], sender);
    }
  }

  // ----- Against the atomic model -----

  /** A send whose two steps run back to back is the atomic send. */
  lemma SerialSendIsAtomic(sys: System, sender: string, d: Device, m: Message, now: int)
    ensures var read := Next(sys, ReadStep(sender, d, m));
      && (|read.pending| > |sys.pending| <==> Accepts(sys.store, sender, d, m))
      && (|read.pending| > |sys.pending| ==>
            Next(read, WriteStep(|sys.pending|, now)) == System(Apply(sys.store, Send(sender, d, m, now)), sys.pending))
      && (|read.pending| <= |sys.pending| ==> read == System(Apply(sys.store, Send(sender, d, m, now)), sys.pending))
  {
    var read := Next(sys, ReadStep(sender, d, m));
    if Accepts(sys.store, sender, d, m) {
      assert read.pending[..|sys.pending|] + read.pending[|sys.pending| + 1..] == sys.pending;
      var written := Written(read.store, read.pending[|sys.pending|], now);
      var sent := Sent(sys.store, sender, d, m, now);
      assert written.queues == sent.queues;
      assert written.senders == sent.senders;
      assert written.pairs == sent.pairs;
    }
  }

  // ----- Expiry and ownership across interleavings -----

  /**
   A write for a send that found messages in a queue that is gone by now: it creates the queue anew, without
   expiry.
   */
  ghost predicate StaleWrite(sys: System, step: Step) {
    && step.WriteStep? && step.index < |sys.pending|
    && sys.pending[step.index].depth > 0 && sys.pending[step.index].device !in sys.store.queues
  }

  lemma AtomicKeepsExpiry(st: Store, op: Op)
    requires AllExpire(st) && !op.Send?
    ensures AllExpire(Apply(st, op))
  {
    forall d {
      OtherEffect(st, op, d);
    }
  }

  lemma WriteExpiryIff(st: Store, p: Pending, now: int)
    requires AllExpire(st)
    ensures AllExpire(Written(st, p, now)) <==> !(p.depth > 0 && p.device !in st.queues)
  {
    var after := Written(st, p, now);
    assert p.device in after.queues;
    forall d | d in after.queues && d != p.device ensures d in st.queues && after.queues[d] == st.queues[d] {
    }
  }

  /** A step keeps every queue expiring exactly if it is not a stale write. */
  lemma ExpiryKeptIff(sys: System, step: Step)
    requires AllExpire(sys.store) && Possible(sys, step)
    ensures AllExpire(Next(sys, step).store) <==> !StaleWrite(sys, step)
  {
    match step {
      case ReadStep(_, _, _) =>
        assert Next(sys, step).store.queues == sys.store.queues;
      case WriteStep(i, now) => WriteExpiryIff(sys.store, sys.pending[i], now);
      case Atomic(op) => AtomicKeepsExpiry(sys.store, op);
    }
  }

  ghost predicate ExpiringThroughout(sys: System, steps: seq<Step>)
    decreases |steps|
  {
    AllExpire(End(sys, steps).store) && (steps != [] ==> ExpiringThroughout(sys, steps[..|steps| - 1]))
  }

  ghost predicate NoStaleWrite(sys: System, steps: seq<Step>)
    decreases |steps|
  {
    steps == [] ||
    (NoStaleWrite(sys, steps[..|steps| - 1]) && !StaleWrite(End(sys, steps[..|steps| - 1]), steps[|steps| - 1]))
  }

  /** Every queue has an expiry throughout a run if and only if the run has no stale write. */
  lemma {:induction false} RunExpiresIff(sys: System, steps: seq<Step>, k: nat)
    requires IsRun(sys, steps, k) && AllExpire(sys.store)
    ensures ExpiringThroughout(sys, steps) <==> NoStaleWrite(sys, steps)
    decreases |steps|
  {
    if steps != [] {
      var init := steps[..|steps| - 1];
      RunExpiresIff(sys, init, k);
      if ExpiringThroughout(sys, init) {
        ExpiryKeptIff(End(sys, init), steps[|steps| - 1]);
      }
    }
  }

  ghost predicate AllOwned(st: Store) {
    forall d :: d in st.queues ==> Registered(st, d)
  }

  /** A registry lapses before the queue of one of its devices does. */
  ghost predicate LapsesFirst(st: Store, now: int) {
    exists d :: d in st.queues && Alive(st.queues[d].expiry, now) && Lapses(st, d.user, now)
  }

  /** A write for a device that is no longer registered, or a registry that lapses before a queue. */
  ghost predicate Orphans(sys: System, step: Step) {
    match step
    case WriteStep(i, _) => i < |sys.pending| && !Registered(sys.store, sys.pending[i].device)
    case Atomic(op) => op.Tick? && LapsesFirst(sys.store, op.now)
    case ReadStep(_, _, _) => false
  }

  lemma TickOwnershipIff(st: Store, now: int)
    requires AllOwned(st)
    ensures AllOwned(Apply(st, Tick(now))) <==> !LapsesFirst(st, now)
  {
    var after := Ticked(st, now);
    if LapsesFirst(st, now) {
      var d :| d in st.queues && Alive(st.queues[d].expiry, now) && Lapses(st, d.user, now);
      assert d in after.queues && !Registered(after, d);
    } else {
      forall d | d in after.queues ensures Registered(after, d) {
        assert Registered(st, d) && !Lapses(st, d.user, now);
      }
    }
  }

  lemma AtomicKeepsOwners(st: Store, op: Op)
    requires AllOwned(st) && !op.Send? && !op.Tick?
    ensures AllOwned(Apply(st, op))
  {
    forall d | d in Apply(st, op).queues ensures Registered(Apply(st, op), d) {
      OtherEffect(st, op, d);
      assert Registered(st, d);
    }
  }

  lemma WriteOwnershipIff(st: Store, p: Pending, now: int)
    requires AllOwned(st)
    ensures AllOwned(Written(st, p, now)) <==> Registered(st, p.device)
  {
    var after := Written(st, p, now);
    assert after.registries == st.registries && p.device in after.queues;
    if Registered(st, p.device) {
      forall d | d in after.queues ensures Registered(after, d) {
        assert d == p.device || d in st.queues;
      }
    }
  }

  /** A step keeps every queue with a registered device exactly if it is neither of the two. */
  lemma OwnershipKeptIff(sys: System, step: Step)
    requires AllOwned(sys.store) && Possible(sys, step)
    ensures AllOwned(Next(sys, step).store) <==> !Orphans(sys, step)
  {
    match step {
      case ReadStep(sender, d, m) =>
        var after := Next(sys, step).store;
        forall e | e in after.queues ensures Registered(after, e) {
          assert Registered(sys.store, e);
        }
      case WriteStep(i, now) => WriteOwnershipIff(sys.store, sys.pending[i], now);
      case Atomic(op) =>
        if op.Tick? {
          TickOwnershipIff(sys.store, op.now);
        } else {
          AtomicKeepsOwners(sys.store, op);
        }
    }
  }

  ghost predicate OwnedThroughout(sys: System, steps: seq<Step>)
    decreases |steps|
  {
    AllOwned(End(sys, steps).store) && (steps != [] ==> OwnedThroughout(sys, steps[..|steps| - 1]))
  }

  ghost predicate NoOrphans(sys: System, steps: seq<Step>)
    decreases |steps|
  {
    steps == [] ||
    (NoOrphans(sys, steps[..|steps| - 1]) && !Orphans(End(sys, steps[..|steps| - 1]), steps[|steps| - 1]))
  }

  /** Every queue belongs to a registered device throughout a run if and only if the run has neither. */
  lemma {:induction false} RunOwnedIff(sys: System, steps: seq<Step>, k: nat)
    requires IsRun(sys, steps, k) && AllOwned(sys.store)
    ensures OwnedThroughout(sys, steps) <==> NoOrphans(sys, steps)
    decreases |steps|
  {
    if steps != [] {
      var init := steps[..|steps| - 1];
      RunOwnedIff(sys, init, k);
      if OwnedThroughout(sys, init) {
        OwnershipKeptIff(End(sys, init), steps[|steps| - 1]);
      }
    }
  }

  /**
   How it comes about: whatever takes the queue away between the two steps of a send that found it
   non-empty, be it a drain, a removal or the clock, makes the write a stale one.
   */
  lemma LossDuringSendIsStale(sys: System, sender: string, d: Device, m: Message, op: Op, now: int)
    requires Accepts(sys.store, sender, d, m) && Messages(sys.store, d) != [] && !op.Send?
    ensures var between := Next(Next(sys, ReadStep(sender, d, m)), Atomic(op));
      StaleWrite(between, WriteStep(|sys.pending|, now)) <==> d !in between.store.queues
  {
  }

  /** A run of three steps after which a write orphans its message: the device is removed while a send is under way. */
  lemma OrphanReached() returns (steps: seq<Step>)
    ensures IsRun(START, steps, 1)
    ensures Possible(End(START, steps), WriteStep(0, 0)) && Orphans(End(START, steps), WriteStep(0, 0))
  {
    Opened(1);
    var open := [Atomic(Register(TARGET.user, TARGET.session, "n", 0))];
    var read := ReadOnce(START, open, 0, 0, 0, 1);
    steps := ThenAtomic(START, read, 1, 1, 0, Remove(TARGET), 1);
  }

  lemma OneQueued() returns (steps: seq<Step>)
    ensures IsRun(START, steps, 1) && Loaded(End(START, steps), 1, 0, 1)
  {
    Opened(1);
    steps := Serial(START, [Atomic(Register(TARGET.user, TARGET.session, "n", 0))], 1, 1);
  }

  lemma RemovalMakesStale(sys: System, depth: nat)
    requires Loaded(sys, 2, 1, depth) && sys.pending[0].depth > 0
    ensures var after := Next(sys, Atomic(Remove(TARGET)));
      Possible(after, WriteStep(0, 0)) && StaleWrite(after, WriteStep(0, 0))
  {
  }

  /**
   And one after which a write is stale: a send that found its queue filled is under way when the device is
   removed.
   */
  lemma StaleWriteReached() returns (steps: seq<Step>)
    ensures IsRun(START, steps, 1)
    ensures Possible(End(START, steps), WriteStep(0, 0)) && StaleWrite(End(START, steps), WriteStep(0, 0))
  {
    var one := OneQueued();
    var read := ReadOnce(START, one, 1, 0, 1, 1);
    RemovalMakesStale(End(START, read), 1);
    steps := ThenAtomic(START, read, 2, 1, 1, Remove(TARGET), 1);
  }

  lemma ThenAtomic(sys: System, steps: seq<Step>, from: nat, waiting: nat, depth: nat, op: Op, k: nat)
    returns (more: seq<Step>)
    requires IsRun(sys, steps, k) && Loaded(End(sys, steps), from, waiting, depth) && waiting <= k && !op.Send?
    ensures IsRun(sys, more, k) && End(sys, more) == Next(End(sys, steps), Atomic(op))
  {
    OneStep(sys, steps, Atomic(op), k);
    LoadedWithin(End(sys, steps), from, waiting, depth, k);
    assert Next(End(sys, steps), Atomic(op)).pending == End(sys, steps).pending;
    more := steps + [Atomic(op)];
  }

  // ----- A drain in two round trips -----

  /**
   What happened to a device's queue during the steps: whether it is still the one it was, and what
   was pushed since, or since it was last taken away.
   */
  ghost function During(sys: System, steps: seq<Step>, d: Device): (bool, seq<Message>)
    decreases |steps|
  {
    if steps == [] then (true, [])
    else
      var before, step := End(sys, steps[..|steps| - 1]), steps[|steps| - 1];
      var (intact, pushed) := During(sys, steps[..|steps| - 1], d);
      match step
      case WriteStep(i, _) =>
        if i < |before.pending| && before.pending[i].device == d then (intact, pushed + [before.pending[i].m])
        else (intact, pushed)
      case Atomic(op) => if Closes(before.store, op, d) then (false, []) else (intact, pushed)
      case ReadStep(_, _, _) => (intact, pushed)
  }

  lemma QueueStep(sys: System, step: Step, d: Device)
    requires Possible(sys, step)
    ensures var before, after := Messages(sys.store, d), Messages(Next(sys, step).store, d);
      match step
      case WriteStep(i, _) => after == before + (if sys.pending[i].device == d then [sys.pending[i].m] else [])
      case Atomic(op) => after == if Closes(sys.store, op, d) then [] else before
      case ReadStep(_, _, _) => after == before
  {
    if step.Atomic? {
      OtherEffect(sys.store, step.op, d);
    }
  }

  lemma {:induction false} QueueDuring(sys: System, steps: seq<Step>, k: nat, d: Device)
    requires IsRun(sys, steps, k)
    ensures var (intact, pushed) := During(sys, steps, d);
      Messages(End(sys, steps).store, d) == (if intact then Messages(sys.store, d) else []) + pushed
    decreases |steps|
  {
    if steps != [] {
      QueueDuring(sys, steps[..|steps| - 1], k, d);
      QueueStep(End(sys, steps[..|steps| - 1]), steps[|steps| - 1], d);
    }
  }

  /** The deletion that ends a drain: it is left out when the drain read nothing. */
  function AfterDelete(st: Store, taken: seq<Message>, d: Device): Store {
    if taken == [] then st else st.(queues := st.queues - {d})
  }

  /**
   Between a drain's read at `sys` and its deletion after the steps: what the deletion removes is
   what the drain took, unless it was gone already, followed by what was pushed in between. Those
   pushed messages are lost, and nothing else is; a drain that read nothing deletes nothing.
   */
  lemma SplitDrainLoses(sys: System, steps: seq<Step>, k: nat, d: Device)
    requires IsRun(sys, steps, k)
    ensures var taken, at := Messages(sys.store, d), End(sys, steps).store;
      var (intact, pushed) := During(sys, steps, d);
      && Messages(at, d) == (if intact then taken else []) + pushed
      && Messages(AfterDelete(at, taken, d), d) == (if taken == [] then pushed else [])
  {
    QueueDuring(sys, steps, k, d);
  }

  /** A queue that is no longer intact was closed on the way, with everything the drain took still in it. */
  lemma {:induction false} TakenTwice(sys: System, steps: seq<Step>, k: nat, d: Device) returns (i: nat)
    requires IsRun(sys, steps, k) && !During(sys, steps, d).0
    ensures i < |steps| && steps[i].Atomic? && Closes(End(sys, steps[..i]).store, steps[i].op, d)
    ensures Messages(sys.store, d) <= Messages(End(sys, steps[..i]).store, d)
    decreases |steps|
  {
    var init := steps[..|steps| - 1];
    if During(sys, init, d).0 {
      i := |steps| - 1;
      QueueDuring(sys, init, k, d);
    } else {
      i := TakenTwice(sys, init, k, d);
      assert init[..i] == steps[..i];
    }
  }

  /** With nothing in between the two round trips leave every queue as the atomic drain does. */
  lemma UninterruptedDrain(st: Store, d: Device, up: nat -> bool, e: Device)
    ensures Messages(AfterDelete(st, Messages(st, d), d), e) == Messages(Apply(st, Drain(d, up)), e)
  {
  }

  lemma SendDuringDrainIsPushed(sys: System, sender: string, d: Device, m: Message, now: int)
    requires Accepts(sys.store, sender, d, m)
    ensures During(sys, [ReadStep(sender, d, m), WriteStep(|sys.pending|, now)], d) == (true, [m])
  {
    var read, write := ReadStep(sender, d, m), WriteStep(|sys.pending|, now);
    assert [read, write][..1] == [read] && [read][..0] == [];
    assert End(sys, []) == sys && End(sys, [read]) == AfterRead(sys, sender, d, m);
    assert During(sys, [], d) == (true, []);
    assert During(sys, [read], d) == (true, []);
    assert End(sys, [read]).pending[|sys.pending|].m == m;
    assert [] + [m] == [m];
  }

  /** A send accepted in between, though it was reported as queued, is lost if and only if the drain read something. */
  lemma SendDuringDrainLostIff(sys: System, sender: string, d: Device, m: Message, now: int, k: nat)
    requires Accepts(sys.store, sender, d, m)
    requires IsRun(sys, [ReadStep(sender, d, m), WriteStep(|sys.pending|, now)], k)
    ensures var taken := Messages(sys.store, d);
      var at := End(sys, [ReadStep(sender, d, m), WriteStep(|sys.pending|, now)]).store;
      && Messages(at, d) == taken + [m]
      && Messages(AfterDelete(at, taken, d), d) == (if taken == [] then [m] else [])
  {
    SendDuringDrainIsPushed(sys, sender, d, m, now);
    SplitDrainLoses(sys, [ReadStep(sender, d, m), WriteStep(|sys.pending|, now)], k, d);
  }
}
