/**
 The windows of the rate limits: a counter is to disappear a minute after its
 first send. Its expiry is set only when that first send goes through.
 */
module RateCounters {
  import opened DrainFilter
  import opened BrokerModel

  /** Every counter has counted something and expires, or is about to be given an expiry. */
  ghost predicate Timed<K(!new)>(counters: map<K, Counter>, firsts: set<K>) {
    forall k :: k in counters ==> counters[k].count >= 1 && (counters[k].expiry.Some? || k in firsts)
  }

  lemma BumpTimedIff<K(!new)>(counters: map<K, Counter>, firsts: set<K>, k: K)
    requires Timed(counters, firsts)
    ensures Timed(Bumped(counters, k), firsts) <==> k in counters || k in firsts
  {
    assert k in Bumped(counters, k);
  }

  lemma SendTimedIff<K(!new)>(counters: map<K, Counter>, k: K, now: int, accepted: bool)
    requires Timed(counters, {})
    ensures Timed(if accepted then Armed(Bumped(counters, k), k, now) else Bumped(counters, k), {})
       <==> accepted || k in counters
  {
    BumpTimedIff(counters, {}, k);
  }

  predicate AllowedSize(op: Op) {
    op.Send? && |op.m.body| <= MAX_MESSAGE_BYTES
  }

  predicate Refused(st: Store, op: Op) {
    AllowedSize(op) && !Accepts(st, op.sender, op.device, op.m)
  }

  /** The first send of a sender's window, refused: it starts the count and sets no expiry. */
  predicate StrandsSender(st: Store, op: Op) {
    Refused(st, op) && op.sender !in st.senders
  }

  predicate StrandsPair(st: Store, op: Op) {
    Refused(st, op) && Pair(op.sender, op.device) !in st.pairs
  }

  lemma OtherCounters(st: Store, op: Op)
    requires !AllowedSize(op)
    ensures forall s :: s in Apply(st, op).senders ==> s in st.senders && Apply(st, op).senders[s] == st.senders[s]
    ensures forall p :: p in Apply(st, op).pairs ==> p in st.pairs && Apply(st, op).pairs[p] == st.pairs[p]
  {
  }

  lemma SentCounters(st: Store, op: Op)
    requires AllowedSize(op)
    ensures var ok, pair := Accepts(st, op.sender, op.device, op.m), Pair(op.sender, op.device);
      var senders, pairs := Bumped(st.senders, op.sender), Bumped(st.pairs, pair);
      && Apply(st, op).senders == (if ok then Armed(senders, op.sender, op.now) else senders)
      && Apply(st, op).pairs == (if ok then Armed(pairs, pair, op.now) else pairs)
  {
  }

  /** An operation keeps every sender's counter expiring exactly if it is not a refused first send. */
  lemma SendersTimedIff(st: Store, op: Op)
    requires Timed(st.senders, {})
    ensures Timed(Apply(st, op).senders, {}) <==> !StrandsSender(st, op)
  {
    if AllowedSize(op) {
      SentCounters(st, op);
      SendTimedIff(st.senders, op.sender, op.now, Accepts(st, op.sender, op.device, op.m));
    } else {
      OtherCounters(st, op);
    }
  }

  lemma PairsTimedIff(st: Store, op: Op)
    requires Timed(st.pairs, {})
    ensures Timed(Apply(st, op).pairs, {}) <==> !StrandsPair(st, op)
  {
    if AllowedSize(op) {
      SentCounters(st, op);
      SendTimedIff(st.pairs, Pair(op.sender, op.device), op.now, Accepts(st, op.sender, op.device, op.m));
    } else {
      OtherCounters(st, op);
    }
  }

  // ----- Runs -----

  ghost predicate SendersTimedThroughout(st: Store, ops: seq<Op>)
    decreases |ops|
  {
    Timed(ApplyAll(st, ops).senders, {}) && (ops != [] ==> SendersTimedThroughout(st, ops[..|ops| - 1]))
  }

  ghost predicate NoSenderStranded(st: Store, ops: seq<Op>)
    decreases |ops|
  {
    ops == [] ||
    (NoSenderStranded(st, ops[..|ops| - 1]) && !StrandsSender(ApplyAll(st, ops[..|ops| - 1]), ops[|ops| - 1]))
  }

  /** Every sender's counter expires throughout a run if and only if no first send of a window is refused. */
  lemma {:induction false} SenderWindowsCloseIff(st: Store, ops: seq<Op>)
    requires Timed(st.senders, {})
    ensures SendersTimedThroughout(st, ops) <==> NoSenderStranded(st, ops)
    decreases |ops|
  {
    if ops != [] {
      var init := ops[..|ops| - 1];
      SenderWindowsCloseIff(st, init);
      if SendersTimedThroughout(st, init) {
        SendersTimedIff(ApplyAll(st, init), ops[|ops| - 1]);
      }
    }
  }

  ghost predicate PairsTimedThroughout(st: Store, ops: seq<Op>)
    decreases |ops|
  {
    Timed(ApplyAll(st, ops).pairs, {}) && (ops != [] ==> PairsTimedThroughout(st, ops[..|ops| - 1]))
  }

  ghost predicate NoPairStranded(st: Store, ops: seq<Op>)
    decreases |ops|
  {
    ops == [] ||
    (NoPairStranded(st, ops[..|ops| - 1]) && !StrandsPair(ApplyAll(st, ops[..|ops| - 1]), ops[|ops| - 1]))
  }

  /** The same for the counters of sender and recipient. */
  lemma {:induction false} PairWindowsCloseIff(st: Store, ops: seq<Op>)
    requires Timed(st.pairs, {})
    ensures PairsTimedThroughout(st, ops) <==> NoPairStranded(st, ops)
    decreases |ops|
  {
    if ops != [] {
      var init := ops[..|ops| - 1];
      PairWindowsCloseIff(st, init);
      if PairsTimedThroughout(st, init) {
        PairsTimedIff(ApplyAll(st, init), ops[|ops| - 1]);
      }
    }
  }

  // ----- What a stranded counter does -----

  /** A counter that has started and will never expire. */
  ghost predicate Stuck<K(!new)>(counters: map<K, Counter>, k: K) {
    k in counters && counters[k].count >= 1 && counters[k].expiry.None?
  }

  lemma BumpStuck<K(!new)>(counters: map<K, Counter>, k: K, other: K, now: int)
    requires Stuck(counters, k)
    ensures var bumped := Bumped(counters, other);
      && Stuck(bumped, k) && Stuck(Armed(bumped, other, now), k)
      && Count(bumped, k) == Count(Armed(bumped, other, now), k) == Count(counters, k) + if other == k then 1 else 0
  {
  }

  lemma OtherStuck(st: Store, op: Op, s: string, p: (string, string))
    requires !AllowedSize(op)
    ensures Stuck(st.senders, s) ==>
      Stuck(Apply(st, op).senders, s) && Count(Apply(st, op).senders, s) == Count(st.senders, s)
    ensures Stuck(st.pairs, p) ==>
      Stuck(Apply(st, op).pairs, p) && Count(Apply(st, op).pairs, p) == Count(st.pairs, p)
  {
  }

  /** A refused first send leaves such a counter. */
  lemma StrandedIsStuck(st: Store, op: Op)
    ensures StrandsSender(st, op) ==>
      Stuck(Apply(st, op).senders, op.sender) && Count(Apply(st, op).senders, op.sender) == 1
    ensures StrandsPair(st, op) ==>
      var pair := Pair(op.sender, op.device);
      Stuck(Apply(st, op).pairs, pair) && Count(Apply(st, op).pairs, pair) == 1
  {
    if AllowedSize(op) {
      SentCounters(st, op);
    }
  }

  /** How many sends of allowed size the operations hold, by a sender or to a recipient. */
  function SendsBy(ops: seq<Op>, sender: string): nat {
    if ops == [] then 0
    else SendsBy(ops[..|ops| - 1], sender)
         + if AllowedSize(ops[|ops| - 1]) && ops[|ops| - 1].sender == sender then 1 else 0
  }

  function SendsBetween(ops: seq<Op>, pair: (string, string)): nat {
    if ops == [] then 0
    else
      var op := ops[|ops| - 1];
      SendsBetween(ops[..|ops| - 1], pair) + if AllowedSize(op) && Pair(op.sender, op.device) == pair then 1 else 0
  }

  lemma {:induction false} StuckSenderCounts(st: Store, ops: seq<Op>, sender: string)
    requires Stuck(st.senders, sender)
    ensures Stuck(ApplyAll(st, ops).senders, sender)
    ensures Count(ApplyAll(st, ops).senders, sender) == Count(st.senders, sender) + SendsBy(ops, sender)
    decreases |ops|
  {
    if ops != [] {
      var before, op := ApplyAll(st, ops[..|ops| - 1]), ops[|ops| - 1];
      StuckSenderCounts(st, ops[..|ops| - 1], sender);
      if AllowedSize(op) {
        SentCounters(before, op);
        BumpStuck(before.senders, sender, op.sender, op.now);
      } else {
        OtherStuck(before, op, sender, ("", ""));
      }
    }
  }

  lemma {:induction false} StuckPairCounts(st: Store, ops: seq<Op>, pair: (string, string))
    requires Stuck(st.pairs, pair)
    ensures Stuck(ApplyAll(st, ops).pairs, pair)
    ensures Count(ApplyAll(st, ops).pairs, pair) == Count(st.pairs, pair) + SendsBetween(ops, pair)
    decreases |ops|
  {
    if ops != [] {
      var before, op := ApplyAll(st, ops[..|ops| - 1]), ops[|ops| - 1];
      StuckPairCounts(st, ops[..|ops| - 1], pair);
      if AllowedSize(op) {
        SentCounters(before, op);
        BumpStuck(before.pairs, pair, Pair(op.sender, op.device), op.now);
      } else {
        OtherStuck(before, op, "", pair);
      }
    }
  }

  /**
   From a refused first send on the count is for good: once the sender has tried 120 times in all,
   whatever happens and however much time passes, no message of theirs is accepted again.
   */
  lemma StrandedSenderIsLockedOut(st: Store, op: Op, ops: seq<Op>, d: Device, m: Message)
    requires StrandsSender(st, op) && 1 + SendsBy(ops, op.sender) >= RATE_MAX_GLOBAL
    ensures !Accepts(ApplyAll(Apply(st, op), ops), op.sender, d, m)
  {
    StrandedIsStuck(st, op);
    StuckSenderCounts(Apply(st, op), ops, op.sender);
  }

  /** And once they have tried 30 times to reach the recipient, none to that recipient. */
  lemma StrandedPairIsLockedOut(st: Store, op: Op, ops: seq<Op>, d: Device, m: Message)
    requires StrandsPair(st, op) && d.user == op.device.user
    requires 1 + SendsBetween(ops, Pair(op.sender, op.device)) >= RATE_MAX_PAIR
    ensures !Accepts(ApplyAll(Apply(st, op), ops), op.sender, d, m)
  {
    StrandedIsStuck(st, op);
    StuckPairCounts(Apply(st, op), ops, Pair(op.sender, op.device));
  }
}
