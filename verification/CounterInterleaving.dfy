/** The rate windows when a send's two round trips are interleaved with other operations. */
module CounterInterleaving {
  import opened Collections
  import opened DrainFilter
  import opened BrokerModel
  import opened SendInterleaving
  import opened RateCounters

  /** The senders whose window was opened by a send that has yet to push; its write will set the expiry. */
  function FirstSenders(pending: seq<Pending>): set<string> {
    set p | p in pending && p.globalCount == 1 :: p.sender
  }

  function FirstPairs(pending: seq<Pending>): set<(string, string)> {
    set p | p in pending && p.pairCount == 1 :: Pair(p.sender, p.device)
  }

  predicate RefusedNow(sys: System, step: Step) {
    && step.ReadStep? && |step.m.body| <= MAX_MESSAGE_BYTES
    && !Accepts(sys.store, step.sender, step.device, step.m)
  }

  /** A refused read that opens a window nobody else is about to time. */
  predicate OpensForGood(sys: System, step: Step) {
    RefusedNow(sys, step) && step.sender !in sys.store.senders && step.sender !in FirstSenders(sys.pending)
  }

  predicate OpensPairForGood(sys: System, step: Step) {
    RefusedNow(sys, step) &&
    var pair := Pair(step.sender, step.device);
    pair !in sys.store.pairs && pair !in FirstPairs(sys.pending)
  }

  /** Every counter expires or is about to be given an expiry. */
  ghost predicate SendersTimed(sys: System) {
    Timed(sys.store.senders, FirstSenders(sys.pending))
  }

  ghost predicate PairsTimed(sys: System) {
    Timed(sys.store.pairs, FirstPairs(sys.pending))
  }

  lemma MoreFirsts<K(!new)>(counters: map<K, Counter>, a: set<K>, b: set<K>)
    requires Timed(counters, a) && a <= b
    ensures Timed(counters, b)
  {
  }

  /** A counted send that passed: its window is timed if it was, or is about to be. */
  lemma PassedTimed<K(!new)>(counters: map<K, Counter>, firsts: set<K>, more: set<K>, k: K)
    requires Timed(counters, firsts) && firsts <= more && (Count(counters, k) == 0 ==> k in more)
    ensures Timed(Bumped(counters, k), more)
  {
    MoreFirsts(counters, firsts, more);
    BumpTimedIff(counters, more, k);
  }

  /** Setting the expiry makes up for the pending send that is gone. */
  lemma WrittenTimed<K(!new)>(counters: map<K, Counter>, firsts: set<K>, fewer: set<K>, k: K, now: int, first: bool)
    requires Timed(counters, firsts) && firsts <= (if first then fewer + {k} else fewer)
    ensures Timed(if first then SendInterleaving.Expiring(counters, k, now) else counters, fewer)
  {
  }

  lemma FirstsAfterPush(pending: seq<Pending>, p: Pending)
    ensures FirstSenders(pending) <= FirstSenders(pending + [p])
    ensures FirstPairs(pending) <= FirstPairs(pending + [p])
    ensures p.globalCount == 1 ==> p.sender in FirstSenders(pending + [p])
    ensures p.pairCount == 1 ==> Pair(p.sender, p.device) in FirstPairs(pending + [p])
  {
    forall q | q in pending ensures q in pending + [p] {
    }
    assert p in pending + [p];
  }

  lemma FirstsAfterWrite(pending: seq<Pending>, i: nat)
    requires i < |pending|
    ensures var p, rest := pending[i], pending[..i] + pending[i + 1..];
      && FirstSenders(pending) <= (if p.globalCount == 1 then FirstSenders(rest) + {p.sender} else FirstSenders(rest))
      && FirstPairs(pending) <=
           (if p.pairCount == 1 then FirstPairs(rest) + {Pair(p.sender, p.device)} else FirstPairs(rest))
  {
    var p, rest := pending[i], pending[..i] + pending[i + 1..];
    forall q | q in pending ensures q == p || q in rest {
      var j :| 0 <= j < |pending| && pending[j] == q;
      if j < i {
        assert rest[j] == q;
      } else if j > i {
        assert rest[j - 1] == q;
      }
    }
  }

  lemma ReadTimedIff(sys: System, sender: string, d: Device, m: Message)
    ensures SendersTimed(sys) ==>
      (SendersTimed(AfterRead(sys, sender, d, m)) <==> !OpensForGood(sys, ReadStep(sender, d, m)))
    ensures PairsTimed(sys) ==>
      (PairsTimed(AfterRead(sys, sender, d, m)) <==> !OpensPairForGood(sys, ReadStep(sender, d, m)))
  {
    var after, pair := AfterRead(sys, sender, d, m), Pair(sender, d);
    if |m.body| <= MAX_MESSAGE_BYTES {
      if Accepts(sys.store, sender, d, m) {
        var p := after.pending[|sys.pending|];
        assert after.pending == sys.pending + [p];
        FirstsAfterPush(sys.pending, p);
        if SendersTimed(sys) {
          PassedTimed(sys.store.senders, FirstSenders(sys.pending), FirstSenders(after.pending), sender);
        }
        if PairsTimed(sys) {
          PassedTimed(sys.store.pairs, FirstPairs(sys.pending), FirstPairs(after.pending), pair);
        }
      } else {
        if SendersTimed(sys) {
          BumpTimedIff(sys.store.senders, FirstSenders(sys.pending), sender);
        }
        if PairsTimed(sys) {
          BumpTimedIff(sys.store.pairs, FirstPairs(sys.pending), pair);
        }
      }
    }
  }

  lemma WriteTimed(sys: System, i: nat, now: int)
    requires i < |sys.pending|
    ensures SendersTimed(sys) ==> SendersTimed(Next(sys, WriteStep(i, now)))
    ensures PairsTimed(sys) ==> PairsTimed(Next(sys, WriteStep(i, now)))
  {
    var p, after := sys.pending[i], Next(sys, WriteStep(i, now));
    FirstsAfterWrite(sys.pending, i);
    if SendersTimed(sys) {
      WrittenTimed(sys.store.senders, FirstSenders(sys.pending), FirstSenders(after.pending),
                   p.sender, now, p.globalCount == 1);
    }
    if PairsTimed(sys) {
      WrittenTimed(sys.store.pairs, FirstPairs(sys.pending), FirstPairs(after.pending),
                   Pair(p.sender, p.device), now, p.pairCount == 1);
    }
  }

  /** A step keeps every window timed exactly if it is not a refused read that opens one for good. */
  lemma TimedKeptIff(sys: System, step: Step)
    requires Possible(sys, step)
    ensures SendersTimed(sys) ==> (SendersTimed(Next(sys, step)) <==> !OpensForGood(sys, step))
    ensures PairsTimed(sys) ==> (PairsTimed(Next(sys, step)) <==> !OpensPairForGood(sys, step))
  {
    match step {
      case ReadStep(sender, d, m) => ReadTimedIff(sys, sender, d, m);
      case WriteStep(i, now) => WriteTimed(sys, i, now);
      case Atomic(op) => AtomicCounters(sys.store, op);
    }
  }

  // ----- Runs -----

  ghost predicate TimedThroughout(sys: System, steps: seq<Step>)
    decreases |steps|
  {
    && SendersTimed(End(sys, steps)) && PairsTimed(End(sys, steps))
    && (steps != [] ==> TimedThroughout(sys, steps[..|steps| - 1]))
  }

  ghost predicate NoneForGood(sys: System, steps: seq<Step>)
    decreases |steps|
  {
    steps == [] ||
    (&& NoneForGood(sys, steps[..|steps| - 1])
     && !OpensForGood(End(sys, steps[..|steps| - 1]), steps[|steps| - 1])
     && !OpensPairForGood(End(sys, steps[..|steps| - 1]), steps[|steps| - 1]))
  }

  /** In every interleaving every window is timed throughout if and only if no refused read opens one for good. */
  lemma {:induction false} WindowsCloseIff(sys: System, steps: seq<Step>, k: nat)
    requires IsRun(sys, steps, k) && SendersTimed(sys) && PairsTimed(sys)
    ensures TimedThroughout(sys, steps) <==> NoneForGood(sys, steps)
    decreases |steps|
  {
    if steps != [] {
      var init := steps[..|steps| - 1];
      WindowsCloseIff(sys, init, k);
      if TimedThroughout(sys, init) {
        TimedKeptIff(End(sys, init), steps[|steps| - 1]);
      }
    }
  }

  // ----- Locked out -----

  /** A sender's counter that nothing under way will ever give an expiry. */
  ghost predicate StuckFor(sys: System, sender: string) {
    Stuck(sys.store.senders, sender) && sender !in FirstSenders(sys.pending)
  }

  lemma ReadStuck(sys: System, from: string, d: Device, m: Message, sender: string)
    requires StuckFor(sys, sender)
    ensures var after := AfterRead(sys, from, d, m);
      StuckFor(after, sender) && Count(after.store.senders, sender) >= Count(sys.store.senders, sender)
  {
    var after := AfterRead(sys, from, d, m);
    BumpStuck(sys.store.senders, sender, from, 0);
    forall p | p in after.pending && p.globalCount == 1 ensures p.sender != sender {
      if p in sys.pending {
        assert p.sender in FirstSenders(sys.pending);
      }
    }
  }

  lemma WriteStuck(sys: System, i: nat, now: int, sender: string)
    requires StuckFor(sys, sender) && i < |sys.pending|
    ensures var after := Next(sys, WriteStep(i, now));
      StuckFor(after, sender) && Count(after.store.senders, sender) == Count(sys.store.senders, sender)
  {
    var p, after := sys.pending[i], Next(sys, WriteStep(i, now));
    assert p in sys.pending;
    assert p.globalCount == 1 ==> p.sender in FirstSenders(sys.pending);
    forall q | q in after.pending ensures q in sys.pending {
    }
  }

  lemma AtomicStuck(st: Store, op: Op, sender: string)
    requires Stuck(st.senders, sender) && !op.Send?
    ensures Stuck(Apply(st, op).senders, sender) && Count(Apply(st, op).senders, sender) == Count(st.senders, sender)
  {
    OtherStuck(st, op, sender, ("", ""));
  }

  /** Such a counter stays, and only grows. */
  lemma {:induction false} StuckThroughout(sys: System, steps: seq<Step>, k: nat, sender: string)
    requires IsRun(sys, steps, k) && StuckFor(sys, sender)
    ensures StuckFor(End(sys, steps), sender)
    ensures Count(End(sys, steps).store.senders, sender) >= Count(sys.store.senders, sender)
    decreases |steps|
  {
    if steps != [] {
      StuckThroughout(sys, steps[..|steps| - 1], k, sender);
      var before := End(sys, steps[..|steps| - 1]);
      match steps[|steps| - 1] {
        case ReadStep(from, d, m) => ReadStuck(before, from, d, m, sender);
        case WriteStep(i, now) => WriteStuck(before, i, now, sender);
        case Atomic(op) => AtomicStuck(before.store, op, sender);
      }
    }
  }

  /** With a stuck count of 120 a sender is never accepted again, in any interleaving. */
  lemma LockedOutForGood(sys: System, steps: seq<Step>, k: nat, sender: string, d: Device, m: Message)
    requires IsRun(sys, steps, k) && StuckFor(sys, sender) && Count(sys.store.senders, sender) >= RATE_MAX_GLOBAL
    ensures !AcceptsNow(End(sys, steps), ReadStep(sender, d, m))
  {
    StuckThroughout(sys, steps, k, sender);
  }

  /** The same for a sender and a recipient. */
  ghost predicate StuckBetween(sys: System, pair: (string, string)) {
    Stuck(sys.store.pairs, pair) && pair !in FirstPairs(sys.pending)
  }

  lemma ReadStuckBetween(sys: System, from: string, d: Device, m: Message, pair: (string, string))
    requires StuckBetween(sys, pair)
    ensures var after := AfterRead(sys, from, d, m);
      StuckBetween(after, pair) && Count(after.store.pairs, pair) >= Count(sys.store.pairs, pair)
  {
    var after := AfterRead(sys, from, d, m);
    BumpStuck(sys.store.pairs, pair, Pair(from, d), 0);
    forall p | p in after.pending && p.pairCount == 1 ensures Pair(p.sender, p.device) != pair {
      if p in sys.pending {
        assert Pair(p.sender, p.device) in FirstPairs(sys.pending);
      }
    }
  }

  lemma WriteStuckBetween(sys: System, i: nat, now: int, pair: (string, string))
    requires StuckBetween(sys, pair) && i < |sys.pending|
    ensures var after := Next(sys, WriteStep(i, now));
      StuckBetween(after, pair) && Count(after.store.pairs, pair) == Count(sys.store.pairs, pair)
  {
    var p, after := sys.pending[i], Next(sys, WriteStep(i, now));
    assert p in sys.pending;
    assert p.pairCount == 1 ==> Pair(p.sender, p.device) in FirstPairs(sys.pending);
    forall q | q in after.pending ensures q in sys.pending {
    }
  }

  lemma {:induction false} StuckBetweenThroughout(sys: System, steps: seq<Step>, k: nat, pair: (string, string))
    requires IsRun(sys, steps, k) && StuckBetween(sys, pair)
    ensures StuckBetween(End(sys, steps), pair)
    ensures Count(End(sys, steps).store.pairs, pair) >= Count(sys.store.pairs, pair)
    decreases |steps|
  {
    if steps != [] {
      StuckBetweenThroughout(sys, steps[..|steps| - 1], k, pair);
      var before := End(sys, steps[..|steps| - 1]);
      match steps[|steps| - 1] {
        case ReadStep(from, d, m) => ReadStuckBetween(before, from, d, m, pair);
        case WriteStep(i, now) => WriteStuckBetween(before, i, now, pair);
        case Atomic(op) => OtherStuck(before.store, op, "", pair);
      }
    }
  }

  /** With a stuck count of 30 nothing from that sender to that recipient is accepted again. */
  lemma PairLockedOutForGood(sys: System, steps: seq<Step>, k: nat, sender: string, d: Device, m: Message)
    requires IsRun(sys, steps, k) && StuckBetween(sys, Pair(sender, d))
    requires Count(sys.store.pairs, Pair(sender, d)) >= RATE_MAX_PAIR
    ensures !AcceptsNow(End(sys, steps), ReadStep(sender, d, m))
  {
    StuckBetweenThroughout(sys, steps, k, Pair(sender, d));
  }

  /** A run after which it happens: somebody's first message meets a full queue. */
  lemma FirstMessageToFullQueue() returns (steps: seq<Step>, sender: string)
    ensures IsRun(START, steps, 1) && OpensForGood(End(START, steps), ReadStep(sender, TARGET, NOTE))
    ensures var after := Next(End(START, steps), ReadStep(sender, TARGET, NOTE));
      && StuckFor(after, sender) && Count(after.store.senders, sender) == 1
      && StuckBetween(after, Pair(sender, TARGET)) && Count(after.store.pairs, Pair(sender, TARGET)) == 1
  {
    steps := Filled(1);
    sender := Name(QUEUE_MAX_DEPTH);
    assert Fresh(End(START, steps).store, QUEUE_MAX_DEPTH);
  }
}
