/** What becomes of each message a device's queue accepted. */
module MessageFate {
  import opened Models
  import opened DrainFilter
  import opened BrokerModel

  datatype Fate =
    | InQueue(place: nat)
    | LostWith(batch: nat, place: nat)
    | ReturnedBy(batch: nat, place: nat, rank: nat)
    | DroppedBy(batch: nat, place: nat)

  /** The filter of the drain that took the batch. */
  function Keep(b: Batch): Message -> bool
    requires b.Delivered?
  {
    m => Keeps(b.raw, _ => b.epochs, b.up, m)
  }

  /** An envelope older than its channel's epoch, as the drain looked it up. */
  predicate PrePurge(b: Batch, m: Message)
    requires b.Delivered?
  {
    m.tag.Some? &&
    var channel := m.tag.value.channel;
    m.tag.value.epoch < LookedUp(b.epochs, b.up(FirstUse(b.raw, channel)), channel)
  }

  ghost predicate IsFate(w: World, d: Device, i: nat, f: Fate) {
    var h, queue := HistoryOf(w, d), Messages(w.store, d);
    && i < |h.accepted|
    && match f
       case InQueue(p) =>
         i == |Flat(h.batches)| + p && p < |queue| && queue[p] == h.accepted[i]
       case LostWith(b, p) =>
         At(h.batches, i, b, p) && h.batches[b].Lost? && h.batches[b].raw[p] == h.accepted[i]
       case ReturnedBy(b, p, r) =>
         && At(h.batches, i, b, p) && h.batches[b].Delivered? && h.batches[b].raw[p] == h.accepted[i]
         && !PrePurge(h.batches[b], h.accepted[i])
         && r == Rank(h.batches[b].raw, Keep(h.batches[b]), p)
         && r < |h.batches[b].returned| && h.batches[b].returned[r] == h.accepted[i]
       case DroppedBy(b, p) =>
         && At(h.batches, i, b, p) && h.batches[b].Delivered? && h.batches[b].raw[p] == h.accepted[i]
         && PrePurge(h.batches[b], h.accepted[i])
  }

  lemma ClosedFate(w: World, ops: seq<Op>, d: Device, i: nat, b: nat, p: nat) returns (f: Fate)
    requires w == Run(EMPTY, ops) && i < |HistoryOf(w, d).accepted| && At(HistoryOf(w, d).batches, i, b, p)
    requires HistoryOf(w, d).batches[b].raw[p] == HistoryOf(w, d).accepted[i]
    requires ClosingsRecorded(ops, d)
    ensures IsFate(w, d, i, f)
  {
    var batch := HistoryOf(w, d).batches[b];
    var m := HistoryOf(w, d).accepted[i];
    if batch.Lost? {
      f := LostWith(b, p);
    } else if PrePurge(batch, m) {
      f := DroppedBy(b, p);
    } else {
      assert ClosedAt(ops, CloseSteps(ops, d)[b], d, batch);
      var r := Rank(batch.raw, Keep(batch), p);
      KeptPlace(batch.raw, Keep(batch), p);
      SameFilter(batch);
      f := ReturnedBy(b, p, r);
    }
  }

  lemma SameFilter(b: Batch)
    requires b.Delivered? && b.returned == KeptAt(b.raw, b.epochs, b.up)
    ensures b.returned == Filtered(b.raw, Keep(b))
  {
    FilteredCongruence(b.raw, m => Keeps(b.raw, _ => b.epochs, b.up, m), Keep(b));
  }

  lemma OnlyOneFate(w: World, d: Device, i: nat, f: Fate, g: Fate)
    requires IsFate(w, d, i, f) && IsFate(w, d, i, g)
    ensures f == g
  {
    var batches := HistoryOf(w, d).batches;
    if !f.InQueue? {
      AtIsClosed(batches, i, f.batch, f.place);
    }
    if !g.InQueue? {
      AtIsClosed(batches, i, g.batch, g.place);
    }
    if !f.InQueue? && !g.InQueue? {
      PlaceIsUnique(batches, i, f.batch, f.place, g.batch, g.place);
    }
  }

  lemma AtIsClosed(batches: seq<Batch>, i: nat, b: nat, k: nat)
    requires At(batches, i, b, k)
    ensures i < |Flat(batches)|
  {
    BeforeGrows(batches, b, |batches|);
    assert batches[..|batches|] == batches;
  }

  /**
   In every run each accepted message has exactly one fate: it is queued at its place, lost with
   its queue, returned at one place by one drain of its own device, or dropped by that drain as
   older than its channel's epoch.
   */
  lemma EveryMessageHasOneFate(ops: seq<Op>, d: Device, i: nat) returns (f: Fate)
    requires i < |HistoryOf(Run(EMPTY, ops), d).accepted|
    ensures IsFate(Run(EMPTY, ops), d, i, f)
    ensures forall g :: IsFate(Run(EMPTY, ops), d, i, g) ==> g == f
  {
    var w := Run(EMPTY, ops);
    var h := HistoryOf(w, d);
    EveryRunIsBalanced(ops);
    EveryBatchIsExplained(ops, d);
    assert Balances(h, Messages(w.store, d));
    if i < |Flat(h.batches)| {
      var b, p := PlaceInBatches(h.batches, i);
      f := ClosedFate(w, ops, d, i, b, p);
    } else {
      f := InQueue(i - |Flat(h.batches)|);
    }
    forall g | IsFate(w, d, i, g) ensures g == f {
      OnlyOneFate(w, d, i, g, f);
    }
  }

  /** Messages come back in the order they were pushed, within a drain and across drains. */
  lemma ReturnedInPushOrder(w: World, d: Device, i: nat, j: nat, f: Fate, g: Fate)
    requires i < j && f.ReturnedBy? && g.ReturnedBy?
    requires IsFate(w, d, i, f) && IsFate(w, d, j, g)
    ensures f.batch < g.batch || (f.batch == g.batch && f.rank < g.rank)
  {
    var batches := HistoryOf(w, d).batches;
    if g.batch < f.batch {
      BeforeGrows(batches, g.batch, f.batch);
    } else if f.batch == g.batch {
      RankGrows(batches[f.batch].raw, Keep(batches[f.batch]), f.place, g.place);
    }
  }

  /** A drain returns nothing else: everything in it is the fate of some accepted message. */
  lemma EveryReturnedWasAccepted(ops: seq<Op>, d: Device, b: nat, r: nat) returns (i: nat, p: nat)
    requires b < |HistoryOf(Run(EMPTY, ops), d).batches| && HistoryOf(Run(EMPTY, ops), d).batches[b].Delivered?
    requires r < |HistoryOf(Run(EMPTY, ops), d).batches[b].returned|
    ensures IsFate(Run(EMPTY, ops), d, i, ReturnedBy(b, p, r))
  {
    var w := Run(EMPTY, ops);
    var h := HistoryOf(w, d);
    var batch := h.batches[b];
    EveryRunIsBalanced(ops);
    EveryBatchIsExplained(ops, d);
    assert Balances(h, Messages(w.store, d)) && ClosedAt(ops, CloseSteps(ops, d)[b], d, batch);
    SameFilter(batch);
    p := KeptSource(batch.raw, Keep(batch), r);
    i := Before(h.batches, b) + p;
    KeptPlace(batch.raw, Keep(batch), p);
    AtIsClosed(h.batches, i, b, p);
    FlatAt(h.batches, i, b, p);
  }

  lemma {:induction false} FlatAt(batches: seq<Batch>, i: nat, b: nat, k: nat)
    requires At(batches, i, b, k) && i < |Flat(batches)|
    ensures Flat(batches)[i] == batches[b].raw[k]
  {
    var b', k' := PlaceInBatches(batches, i);
    PlaceIsUnique(batches, i, b, k, b', k');
  }

  /** The purge counters of a run only ever hold counts. */
  ghost predicate CountsOnly(ops: seq<Op>) {
    forall k :: 0 <= k < |ops| && ops[k].SetEpoch? ==> ops[k].epoch >= 0
  }

  lemma {:induction false} EpochsAreCounts(ops: seq<Op>, channel: string)
    requires CountsOnly(ops)
    ensures EpochOf(Run(EMPTY, ops).store.epochs, channel) >= 0
    decreases |ops|
  {
    if ops != [] {
      EpochsAreCounts(ops[..|ops| - 1], channel);
      EpochsStep(Run(EMPTY, ops[..|ops| - 1]).store, ops[|ops| - 1]);
    }
  }

  lemma EpochsStep(st: Store, op: Op)
    ensures Apply(st, op).epochs == if op.SetEpoch? then st.epochs[op.channel := op.epoch] else st.epochs
  {
  }

  /** A dropped message was older than its channel's stored epoch when its device drained it. */
  lemma DroppedWasPrePurge(ops: seq<Op>, d: Device, i: nat, f: Fate) returns (k: nat)
    requires CountsOnly(ops) && f.DroppedBy? && IsFate(Run(EMPTY, ops), d, i, f)
    ensures k < |ops| && ops[k].Drain? && ops[k].device == d
    ensures var m := HistoryOf(Run(EMPTY, ops), d).accepted[i];
      m.tag.Some? && m.tag.value.epoch < EpochOf(Run(EMPTY, ops[..k]).store.epochs, m.tag.value.channel)
  {
    var batch := HistoryOf(Run(EMPTY, ops), d).batches[f.batch];
    EveryBatchIsExplained(ops, d);
    k := CloseSteps(ops, d)[f.batch];
    assert ClosedAt(ops, k, d, batch);
    EpochsAreCounts(ops[..k], HistoryOf(Run(EMPTY, ops), d).accepted[i].tag.value.channel);
  }

  // ----- The order of pushes and drains -----

  /** Pushed before batch `b` was closed, and after the batch before it was. */
  ghost predicate Between(pushes: seq<nat>, closes: seq<nat>, i: nat, b: nat) {
    && i < |pushes| && b < |closes|
    && pushes[i] < closes[b]
    && (b > 0 ==> closes[b - 1] < pushes[i])
  }

  /** Pushed after everything that was closed. */
  ghost predicate Since(pushes: seq<nat>, closes: seq<nat>, i: nat) {
    i < |pushes| && (closes != [] ==> closes[|closes| - 1] < pushes[i])
  }

  /** Every message of a closed batch was pushed just before that was closed, every queued one after the last. */
  ghost predicate Alternate(h: History, pushes: seq<nat>, closes: seq<nat>) {
    && |pushes| == |h.accepted| && |closes| == |h.batches|
    && (forall i: nat, b: nat, k: nat :: At(h.batches, i, b, k) ==> Between(pushes, closes, i, b))
    && (forall i: nat :: |Flat(h.batches)| <= i < |h.accepted| ==> Since(pushes, closes, i))
  }

  lemma PushAlternates(h: History, pushes: seq<nat>, closes: seq<nat>, m: Message, n: nat)
    requires Alternate(h, pushes, closes) && Rising(closes, n) && |Flat(h.batches)| <= |h.accepted|
    ensures Alternate(h.(accepted := h.accepted + [m]), pushes + [n], closes)
  {
    forall i: nat, b: nat, k: nat | At(h.batches, i, b, k) ensures Between(pushes + [n], closes, i, b) {
      assert Between(pushes, closes, i, b);
    }
    forall i: nat | |Flat(h.batches)| <= i < |h.accepted| + 1 ensures Since(pushes + [n], closes, i) {
      if i < |h.accepted| {
        assert Since(pushes, closes, i);
      }
    }
  }

  lemma AtInPrefix(batches: seq<Batch>, last: Batch, i: nat, b: nat, k: nat)
    requires At(batches + [last], i, b, k) && b < |batches|
    ensures At(batches, i, b, k)
  {
    assert (batches + [last])[..b] == batches[..b];
  }

  lemma AtInLast(batches: seq<Batch>, last: Batch, i: nat, k: nat)
    requires At(batches + [last], i, |batches|, k)
    ensures |Flat(batches)| <= i < |Flat(batches)| + |last.raw|
  {
    assert (batches + [last])[..|batches|] == batches;
  }

  lemma CloseAlternates(h: History, pushes: seq<nat>, closes: seq<nat>, last: Batch, n: nat)
    requires Alternate(h, pushes, closes) && Rising(pushes, n) && Balances(h, last.raw)
    ensures Alternate(h.(batches := h.batches + [last]), pushes, closes + [n])
  {
    var more := h.batches + [last];
    FlatAppend(h.batches, last);
    forall i: nat, b: nat, k: nat | At(more, i, b, k) ensures Between(pushes, closes + [n], i, b) {
      if b < |h.batches| {
        AtInPrefix(h.batches, last, i, b, k);
        assert Between(pushes, closes, i, b);
      } else {
        AtInLast(h.batches, last, i, k);
        assert Since(pushes, closes, i);
      }
    }
  }

  predicate Pushes(st: Store, op: Op, d: Device) {
    op.Send? && op.device == d && Accepts(st, op.sender, d, op.m)
  }

  lemma OneMoreOp(init: seq<Op>, op: Op)
    ensures (init + [op])[..|init|] == init && Run(EMPTY, init + [op]) == Step(Run(EMPTY, init), op)
  {
    assert (init + [op])[..|init|] == init;
  }

  lemma StepsAfter(init: seq<Op>, op: Op, d: Device)
    ensures var st := Run(EMPTY, init).store;
      && PushSteps(init + [op], d) == PushSteps(init, d) + (if Pushes(st, op, d) then [|init|] else [])
      && CloseSteps(init + [op], d) == CloseSteps(init, d) + (if Closes(st, op, d) then [|init|] else [])
  {
    OneMoreOp(init, op);
    assert op.Send? ==> (PushedAt(init + [op], |init|, d, op.m) <==> Pushes(Run(EMPTY, init).store, op, d));
  }

  ghost predicate OneBatchMore(h: History, g: History, raw: seq<Message>) {
    g.batches != [] &&
    var last := g.batches[|g.batches| - 1];
    g == h.(batches := h.batches + [last]) && last.raw == raw
  }

  /** The history after a step: a message more, a batch more, or unchanged. */
  lemma HistoryAfter(w: World, op: Op, d: Device)
    ensures var h, g := HistoryOf(w, d), HistoryOf(Step(w, op), d);
      if Pushes(w.store, op, d) then g == h.(accepted := h.accepted + [op.m])
      else if Closes(w.store, op, d) then OneBatchMore(h, g, Messages(w.store, d))
      else g == h
  {
    if op.Send? {
      SendHistory(w, op, d);
    } else {
      OtherHistory(w, op, d);
    }
  }

  ghost predicate InOrder(ops: seq<Op>, d: Device) {
    Alternate(HistoryOf(Run(EMPTY, ops), d), PushSteps(ops, d), CloseSteps(ops, d))
  }

  lemma StepAlternates(
    h: History, g: History, pushes: seq<nat>, closes: seq<nat>, queue: seq<Message>, n: nat,
    pushing: bool, closing: bool)
    requires Alternate(h, pushes, closes) && Rising(pushes, n) && Rising(closes, n) && Balances(h, queue)
    requires !(pushing && closing)
    requires pushing ==> exists m :: g == h.(accepted := h.accepted + [m])
    requires closing ==> OneBatchMore(h, g, queue)
    requires !pushing && !closing ==> g == h
    ensures Alternate(g, if pushing then pushes + [n] else pushes, if closing then closes + [n] else closes)
  {
    if pushing {
      var m :| g == h.(accepted := h.accepted + [m]);
      PushAlternates(h, pushes, closes, m, n);
    } else if closing {
      CloseAlternates(h, pushes, closes, g.batches[|g.batches| - 1], n);
    }
  }

  lemma StepKeepsOrder(init: seq<Op>, op: Op, d: Device)
    requires InOrder(init, d) && PushesRecorded(init, d) && ClosingsRecorded(init, d) && Balanced(Run(EMPTY, init))
    ensures InOrder(init + [op], d)
  {
    var w := Run(EMPTY, init);
    OneMoreOp(init, op);
    StepsAfter(init, op, d);
    HistoryAfter(w, op, d);
    assert Balances(HistoryOf(w, d), Messages(w.store, d));
    StepAlternates(HistoryOf(w, d), HistoryOf(Step(w, op), d), PushSteps(init, d), CloseSteps(init, d),
                   Messages(w.store, d), |init|, Pushes(w.store, op, d), Closes(w.store, op, d));
    assert PushSteps(init, d) + [] == PushSteps(init, d) && CloseSteps(init, d) + [] == CloseSteps(init, d);
  }

  /**
   In every run pushes and closings alternate: a message is drained or lost at the first closing
   after it was pushed, and what is still queued was pushed after the last.
   */
  lemma {:induction false} PushesPrecedeClosings(ops: seq<Op>, d: Device)
    ensures InOrder(ops, d)
    decreases |ops|
  {
    if ops != [] {
      var init := ops[..|ops| - 1];
      assert ops == init + [ops[|ops| - 1]];
      PushesPrecedeClosings(init, d);
      EveryPushIsRecorded(init, d);
      EveryBatchIsExplained(init, d);
      EveryRunIsBalanced(init);
      StepKeepsOrder(init, ops[|ops| - 1], d);
    }
  }
}
