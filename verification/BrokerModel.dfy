/**
 The message broker's data in Redis and the atomic operations on it, with a
 ledger of what becomes of every message a device's queue accepted.
 */
module BrokerModel {
  import opened Models
  import opened DrainFilter

  const HEARTBEAT_TIMEOUT := 300
  const DEVICE_TTL := 604800
  const QUEUE_TTL := 21600
  const QUEUE_MAX_DEPTH := 100
  const MAX_MESSAGE_BYTES := 4096
  const RATE_WINDOW := 60
  const RATE_MAX_PAIR := 30
  const RATE_MAX_GLOBAL := 120
  const MAX_DEVICES := 8

  datatype Device = Device(user: string, session: string)

  /** An entry of the device registry; `Corrupt` is one that does not parse. */
  datatype Entry = Parsed(node: string, lastSeen: int) | Corrupt

  type Registry = map<string, Entry>

  datatype Queue = Queue(messages: seq<Message>, expiry: Option<int>)

  datatype Counter = Counter(count: nat, expiry: Option<int>)

  datatype Store = Store(
    registries: map<string, Registry>,
    registryExpiry: map<string, int>,
    queues: map<Device, Queue>,
    pairs: map<(string, string), Counter>,
    senders: map<string, Counter>,
    epochs: Epochs)

  function RegistryOf(st: Store, user: string): Registry {
    if user in st.registries then st.registries[user] else map[]
  }

  predicate Registered(st: Store, d: Device) {
    d.session in RegistryOf(st, d.user)
  }

  function Messages(st: Store, d: Device): seq<Message> {
    if d in st.queues then st.queues[d].messages else []
  }

  // ----- Atomic operations -----

  datatype Op =
    | Register(user: string, session: string, node: string, now: int)
    | Refresh(user: string, session: string, now: int)
    | Remove(device: Device)
    | Send(sender: string, device: Device, m: Message, now: int)
    | Drain(device: Device, up: nat -> bool)
    | SetEpoch(channel: string, epoch: int)
    | Tick(now: int)

  function WithEntry(st: Store, user: string, session: string, entry: Entry): Store {
    st.(registries := st.registries[user := RegistryOf(st, user)[session := entry]])
  }

  /** Deleting the last field of a hash deletes the hash and its expiry. */
  function WithoutDevice(st: Store, d: Device): Store {
    var left := RegistryOf(st, d.user) - {d.session};
    var bare := st.(queues := st.queues - {d});
    if left == map[] then
      bare.(registries := st.registries - {d.user}, registryExpiry := st.registryExpiry - {d.user})
    else bare.(registries := st.registries[d.user := left])
  }

  function Refreshed(st: Store, user: string, session: string, now: int): Store {
    var r := RegistryOf(st, user);
    if user !in st.registries then st
    else
      var touched := st.(registryExpiry := st.registryExpiry[user := now + DEVICE_TTL]);
      if session in r && r[session].Parsed? then WithEntry(touched, user, session, r[session].(lastSeen := now))
      else touched
  }

  function Count<K(==)>(counters: map<K, Counter>, k: K): nat {
    if k in counters then counters[k].count else 0
  }

  /** The counter after an increment; the expiry is set only by a send that goes through. */
  function Bumped<K(==)>(counters: map<K, Counter>, k: K): map<K, Counter> {
    counters[k := Counter(Count(counters, k) + 1, if k in counters then counters[k].expiry else None)]
  }

  function Armed<K(==)>(counters: map<K, Counter>, k: K, now: int): map<K, Counter>
    requires k in counters
  {
    if counters[k].count == 1 then counters[k := counters[k].(expiry := Some(now + RATE_WINDOW))] else counters
  }

  function Pair(sender: string, d: Device): (string, string) {
    (sender, d.user)
  }

  predicate Accepts(st: Store, sender: string, d: Device, m: Message) {
    && |m.body| <= MAX_MESSAGE_BYTES
    && Count(st.senders, sender) + 1 <= RATE_MAX_GLOBAL
    && Count(st.pairs, Pair(sender, d)) + 1 <= RATE_MAX_PAIR
    && |Messages(st, d)| < QUEUE_MAX_DEPTH
  }

  function Pushed(st: Store, d: Device, m: Message, now: int): Store {
    var expiry := if Messages(st, d) == [] then Some(now + QUEUE_TTL) else st.queues[d].expiry;
    st.(queues := st.queues[d := Queue(Messages(st, d) + [m], expiry)])
  }

  function Sent(st: Store, sender: string, d: Device, m: Message, now: int): Store {
    if |m.body| > MAX_MESSAGE_BYTES then st
    else
      var counted := st.(senders := Bumped(st.senders, sender), pairs := Bumped(st.pairs, Pair(sender, d)));
      if !Accepts(st, sender, d, m) then counted
      else Pushed(counted.(senders := Armed(counted.senders, sender, now),
                           pairs := Armed(counted.pairs, Pair(sender, d), now)), d, m, now)
  }

  predicate Alive(expiry: Option<int>, now: int) {
    expiry.Some? ==> now < expiry.value
  }

  predicate Lapses(st: Store, user: string, now: int) {
    user in st.registryExpiry && st.registryExpiry[user] <= now
  }

  /** The clock advances: every key whose expiry has passed disappears. */
  function Ticked(st: Store, now: int): Store {
    st.(registries := map u | u in st.registries && !Lapses(st, u, now) :: st.registries[u],
        registryExpiry := map u | u in st.registryExpiry && !Lapses(st, u, now) :: st.registryExpiry[u],
        queues := map d | d in st.queues && Alive(st.queues[d].expiry, now) :: st.queues[d],
        pairs := map p | p in st.pairs && Alive(st.pairs[p].expiry, now) :: st.pairs[p],
        senders := map s | s in st.senders && Alive(st.senders[s].expiry, now) :: st.senders[s])
  }

  function Apply(st: Store, op: Op): Store {
    match op
    case Register(user, session, node, now) =>
      WithEntry(st, user, session, Parsed(node, now)).(registryExpiry := st.registryExpiry[user := now + DEVICE_TTL])
    case Refresh(user, session, now) => Refreshed(st, user, session, now)
    case Remove(d) => WithoutDevice(st, d)
    case Send(sender, d, m, now) => Sent(st, sender, d, m, now)
    case Drain(d, _) => st.(queues := st.queues - {d})
    case SetEpoch(channel, epoch) => st.(epochs := st.epochs[channel := epoch])
    case Tick(now) => Ticked(st, now)
  }

  /** Messages are only queued for devices found in the registry. */
  predicate Enabled(st: Store, op: Op) {
    op.Send? ==> Registered(st, op.device)
  }

  function ApplyAll(st: Store, ops: seq<Op>): Store
    decreases |ops|
  {
    if ops == [] then st else Apply(ApplyAll(st, ops[..|ops| - 1]), ops[|ops| - 1])
  }

  predicate AllEnabled(st: Store, ops: seq<Op>)
    decreases |ops|
  {
    ops == [] || (AllEnabled(st, ops[..|ops| - 1]) && Enabled(ApplyAll(st, ops[..|ops| - 1]), ops[|ops| - 1]))
  }

  lemma {:induction false} ApplyAllConcat(st: Store, a: seq<Op>, b: seq<Op>)
    ensures ApplyAll(st, a + b) == ApplyAll(ApplyAll(st, a), b)
    ensures AllEnabled(st, a + b) <==> AllEnabled(st, a) && AllEnabled(ApplyAll(st, a), b)
    decreases |b|
  {
    if b == [] {
      assert a + b == a;
    } else {
      var init := b[..|b| - 1];
      assert (a + b)[..|a + b| - 1] == a + init;
      ApplyAllConcat(st, a, init);
    }
  }

  // ----- The ledger -----

  /**
   What became of a queue's contents: taken by the device's own drain, with the epochs and the
   lookups of that drain, or lost with the queue.
   */
  datatype Batch =
    | Delivered(raw: seq<Message>, returned: seq<Message>, epochs: Epochs, up: nat -> bool)
    | Lost(raw: seq<Message>)

  datatype History = History(accepted: seq<Message>, batches: seq<Batch>)

  /** The store with its ledger, and the users whose whole registry ever expired. */
  datatype World = World(store: Store, ledger: map<Device, History>, lapsed: set<string>)

  const EMPTY := World(Store(map[], map[], map[], map[], map[], map[]), map[], {})

  function HistoryOf(w: World, d: Device): History {
    if d in w.ledger then w.ledger[d] else History([], [])
  }

  function Closed(w: World, d: Device, b: Batch): map<Device, History> {
    var h := HistoryOf(w, d);
    w.ledger[d := h.(batches := h.batches + [b])]
  }

  function Expiring(st: Store, now: int): set<Device> {
    set d | d in st.queues && !Alive(st.queues[d].expiry, now)
  }

  function KeptAt(raw: seq<Message>, epochs: Epochs, up: nat -> bool): seq<Message> {
    Kept(raw, _ => epochs, up)
  }

  function Ledger(w: World, op: Op): map<Device, History> {
    match op
    case Remove(d) => Closed(w, d, Lost(Messages(w.store, d)))
    case Send(sender, d, m, _) =>
      if Accepts(w.store, sender, d, m)
      then var h := HistoryOf(w, d); w.ledger[d := h.(accepted := h.accepted + [m])]
      else w.ledger
    case Drain(d, up) =>
      var raw := Messages(w.store, d);
      Closed(w, d, Delivered(raw, KeptAt(raw, w.store.epochs, up), w.store.epochs, up))
    case Tick(now) =>
      w.ledger + map d | d in Expiring(w.store, now) ::
        var h := HistoryOf(w, d); h.(batches := h.batches + [Lost(Messages(w.store, d))])
    case _ => w.ledger
  }

  function Step(w: World, op: Op): World {
    World(Apply(w.store, op), Ledger(w, op),
      if op.Tick? then w.lapsed + set u | u in w.store.registries && Lapses(w.store, u, op.now) else w.lapsed)
  }

  function Run(w: World, ops: seq<Op>): World
    decreases |ops|
  {
    if ops == [] then w else Step(Run(w, ops[..|ops| - 1]), ops[|ops| - 1])
  }

  lemma {:induction false} RunStore(w: World, ops: seq<Op>)
    ensures Run(w, ops).store == ApplyAll(w.store, ops)
    decreases |ops|
  {
    if ops != [] {
      RunStore(w, ops[..|ops| - 1]);
    }
  }

  function Flat(batches: seq<Batch>): seq<Message>
    decreases |batches|
  {
    if batches == [] then [] else Flat(batches[..|batches| - 1]) + batches[|batches| - 1].raw
  }

  // ----- Invariants of every run -----

  /** Accepted messages, in push order, are the closed batches followed by what is still queued. */
  ghost predicate Balances(h: History, queued: seq<Message>) {
    h.accepted == Flat(h.batches) + queued
  }

  ghost predicate Balanced(w: World) {
    forall d :: Balances(HistoryOf(w, d), Messages(w.store, d))
  }

  /** Queues are never empty and always expire. */
  ghost predicate AllExpire(st: Store) {
    forall d :: d in st.queues ==> st.queues[d].messages != [] && st.queues[d].expiry.Some?
  }

  /** Until a user's whole registry expires, each queue belongs to a registered device. */
  ghost predicate Owned(w: World) {
    forall d :: d in w.store.queues ==> Registered(w.store, d) || d.user in w.lapsed
  }

  /** No queue grows past the limit. */
  ghost predicate Bounded(st: Store) {
    forall d :: |Messages(st, d)| <= QUEUE_MAX_DEPTH
  }

  /**
   Step `k` of the run closed the batch: a drain of the device, which took the whole queue and
   filtered it by the epochs stored at that step, or a removal or expiry of the queue.
   */
  ghost predicate ClosedAt(ops: seq<Op>, k: nat, d: Device, b: Batch) {
    k < |ops| &&
    var st := Run(EMPTY, ops[..k]).store;
    && b.raw == Messages(st, d)
    && match b
       case Delivered(raw, returned, epochs, up) =>
         ops[k] == Drain(d, up) && epochs == st.epochs && returned == KeptAt(raw, epochs, up)
       case Lost(_) =>
         ops[k] == Remove(d) || (ops[k].Tick? && d in Expiring(st, ops[k].now))
  }

  /** The device's queue takes the message at step `k`. */
  ghost predicate PushedAt(ops: seq<Op>, k: nat, d: Device, m: Message) {
    && k < |ops| && ops[k].Send? && ops[k].device == d && ops[k].m == m
    && Accepts(Run(EMPTY, ops[..k]).store, ops[k].sender, d, m)
  }

  /** The steps at which a device's queue took a message. */
  ghost function PushSteps(ops: seq<Op>, d: Device): seq<nat>
    decreases |ops|
  {
    if ops == [] then []
    else
      var init, op := ops[..|ops| - 1], ops[|ops| - 1];
      PushSteps(init, d) + if op.Send? && PushedAt(ops, |init|, d, op.m) then [|init|] else []
  }

  /** Does the operation close a batch of the device? */
  predicate Closes(st: Store, op: Op, d: Device) {
    || ((op.Remove? || op.Drain?) && op.device == d)
    || (op.Tick? && d in Expiring(st, op.now))
  }

  /** The steps at which a device's queue was drained or lost. */
  ghost function CloseSteps(ops: seq<Op>, d: Device): seq<nat>
    decreases |ops|
  {
    if ops == [] then []
    else
      var init, op := ops[..|ops| - 1], ops[|ops| - 1];
      CloseSteps(init, d) + if Closes(Run(EMPTY, init).store, op, d) then [|init|] else []
  }

  /** Strictly increasing, and before `n`. */
  ghost predicate Rising(steps: seq<nat>, n: nat) {
    && (forall i :: 0 <= i < |steps| ==> steps[i] < n)
    && (forall i, j :: 0 <= i < j < |steps| ==> steps[i] < steps[j])
  }

  lemma FlatAppend(batches: seq<Batch>, b: Batch)
    ensures Flat(batches + [b]) == Flat(batches) + b.raw
  {
    assert (batches + [b])[..|batches|] == batches;
  }

  /** The queue of a device after a send. */
  lemma SendEffect(st: Store, sender: string, to: Device, m: Message, now: int, d: Device)
    ensures var st' := Sent(st, sender, to, m, now);
      && Messages(st', d) == Messages(st, d) + (if d == to && Accepts(st, sender, to, m) then [m] else [])
      && st'.registries == st.registries
      && (d in st'.queues <==> d in st.queues || (d == to && Accepts(st, sender, to, m)))
      && (d in st.queues && !(d == to && Accepts(st, sender, to, m)) ==> st'.queues[d] == st.queues[d])
  {
  }

  lemma PushKeepsExpiry(st: Store, d: Device, m: Message, now: int)
    requires AllExpire(st)
    ensures AllExpire(Pushed(st, d, m, now))
  {
  }

  lemma SendKeepsExpiry(st: Store, sender: string, to: Device, m: Message, now: int)
    requires AllExpire(st)
    ensures AllExpire(Sent(st, sender, to, m, now))
  {
    if Accepts(st, sender, to, m) {
      var counted := st.(senders := Bumped(st.senders, sender), pairs := Bumped(st.pairs, Pair(sender, to)));
      var armed := counted.(senders := Armed(counted.senders, sender, now),
                            pairs := Armed(counted.pairs, Pair(sender, to), now));
      PushKeepsExpiry(armed, to, m, now);
    }
  }

  /** The queue of a device after any other operation. */
  lemma OtherEffect(st: Store, op: Op, d: Device)
    requires !op.Send?
    ensures Messages(Apply(st, op), d) ==
      if (op.Remove? || op.Drain?) && d == op.device then []
      else if op.Tick? && d in Expiring(st, op.now) then []
      else Messages(st, d)
    ensures d in Apply(st, op).queues ==> d in st.queues && Apply(st, op).queues[d] == st.queues[d]
  {
  }

  /** The history of a device after a send. */
  lemma SendHistory(w: World, op: Op, d: Device)
    requires op.Send?
    ensures var h := HistoryOf(w, d);
      HistoryOf(Step(w, op), d) ==
        if d == op.device && Accepts(w.store, op.sender, op.device, op.m)
        then h.(accepted := h.accepted + [op.m]) else h
  {
  }

  /** The history of a device after any other operation: at most one batch more. */
  lemma OtherHistory(w: World, op: Op, d: Device)
    requires !op.Send?
    ensures var h, q := HistoryOf(w, d), Messages(w.store, d);
      HistoryOf(Step(w, op), d) ==
        if op.Drain? && d == op.device then
          h.(batches := h.batches + [Delivered(q, KeptAt(q, w.store.epochs, op.up), w.store.epochs, op.up)])
        else if (op.Remove? && d == op.device) || (op.Tick? && d in Expiring(w.store, op.now)) then
          h.(batches := h.batches + [Lost(q)])
        else h
  {
  }

  lemma AcceptingBalances(h: History, q: seq<Message>, m: Message)
    requires Balances(h, q)
    ensures Balances(h.(accepted := h.accepted + [m]), q + [m])
  {
  }

  lemma ClosingBalances(h: History, b: Batch)
    requires Balances(h, b.raw)
    ensures Balances(h.(batches := h.batches + [b]), [])
  {
    FlatAppend(h.batches, b);
  }

  lemma SendKeepsBalance(w: World, op: Op, d: Device)
    requires op.Send? && Balances(HistoryOf(w, d), Messages(w.store, d))
    ensures Balances(HistoryOf(Step(w, op), d), Messages(Step(w, op).store, d))
  {
    SendHistory(w, op, d);
    SendEffect(w.store, op.sender, op.device, op.m, op.now, d);
    AcceptingBalances(HistoryOf(w, d), Messages(w.store, d), op.m);
    assert Messages(w.store, d) + [] == Messages(w.store, d);
  }

  lemma OtherKeepsBalance(w: World, op: Op, d: Device)
    requires !op.Send? && Balances(HistoryOf(w, d), Messages(w.store, d))
    ensures Balances(HistoryOf(Step(w, op), d), Messages(Step(w, op).store, d))
  {
    OtherHistory(w, op, d);
    OtherEffect(w.store, op, d);
    var h, q := HistoryOf(w, d), Messages(w.store, d);
    ClosingBalances(h, Lost(q));
    if op.Drain? {
      ClosingBalances(h, Delivered(q, KeptAt(q, w.store.epochs, op.up), w.store.epochs, op.up));
    }
  }

  /** One step keeps every device's account balanced. */
  lemma StepKeepsBalance(w: World, op: Op)
    requires Balanced(w)
    ensures Balanced(Step(w, op))
  {
    forall d ensures Balances(HistoryOf(Step(w, op), d), Messages(Step(w, op).store, d)) {
      if op.Send? {
        SendKeepsBalance(w, op, d);
      } else {
        OtherKeepsBalance(w, op, d);
      }
    }
  }

  lemma StepKeepsQueuesExpiring(st: Store, op: Op)
    requires AllExpire(st) && Bounded(st)
    ensures AllExpire(Apply(st, op)) && Bounded(Apply(st, op))
  {
    if op.Send? {
      SendKeepsExpiry(st, op.sender, op.device, op.m, op.now);
      forall d {
        SendEffect(st, op.sender, op.device, op.m, op.now, d);
      }
    } else {
      forall d {
        OtherEffect(st, op, d);
      }
    }
  }

  /** No operation but a removal or the lapse of the whole registry unregisters a device. */
  lemma RegistrationStays(w: World, op: Op, d: Device)
    requires Registered(w.store, d)
    ensures Registered(Apply(w.store, op), d) || (op.Remove? && op.device == d) || d.user in Step(w, op).lapsed
  {
  }

  lemma StepKeepsOwners(w: World, op: Op)
    requires Owned(w) && Enabled(w.store, op)
    ensures Owned(Step(w, op))
  {
    forall d | d in Step(w, op).store.queues
      ensures Registered(Step(w, op).store, d) || d.user in Step(w, op).lapsed
    {
      if op.Send? {
        SendEffect(w.store, op.sender, op.device, op.m, op.now, d);
      } else {
        OtherEffect(w.store, op, d);
      }
      if Registered(w.store, d) {
        RegistrationStays(w, op, d);
      }
    }
  }

  ghost predicate Invariant(w: World) {
    Balanced(w) && AllExpire(w.store) && Bounded(w.store) && Owned(w)
  }

  lemma ClosedStays(init: seq<Op>, op: Op, k: nat, d: Device, b: Batch)
    requires ClosedAt(init, k, d, b)
    ensures ClosedAt(init + [op], k, d, b)
  {
    assert (init + [op])[..k] == init[..k];
  }

  lemma PushedStays(init: seq<Op>, op: Op, k: nat, d: Device, m: Message)
    requires PushedAt(init, k, d, m)
    ensures PushedAt(init + [op], k, d, m)
  {
    assert (init + [op])[..k] == init[..k];
  }

  /** The batch an operation closes is closed at that step. */
  lemma NewBatch(init: seq<Op>, op: Op, d: Device)
    ensures var w := Run(EMPTY, init);
      var before, after := HistoryOf(w, d).batches, HistoryOf(Step(w, op), d).batches;
      if Closes(Run(EMPTY, init).store, op, d)
      then |after| == |before| + 1 && after[..|before|] == before && ClosedAt(init + [op], |init|, d, after[|before|])
      else after == before
  {
    var w := Run(EMPTY, init);
    assert (init + [op])[..|init|] == init;
    if op.Send? {
      SendHistory(w, op, d);
    } else {
      OtherHistory(w, op, d);
    }
  }

  lemma NewPush(init: seq<Op>, op: Op, d: Device)
    ensures var w := Run(EMPTY, init);
      var before, after := HistoryOf(w, d).accepted, HistoryOf(Step(w, op), d).accepted;
      if op.Send? && PushedAt(init + [op], |init|, d, op.m) then after == before + [op.m] else after == before
  {
    var w := Run(EMPTY, init);
    assert (init + [op])[..|init|] == init;
    if op.Send? {
      SendHistory(w, op, d);
    } else {
      OtherHistory(w, op, d);
    }
  }

  /** The closing steps of a device rise, one for each of its batches. */
  ghost predicate ClosingsRecorded(ops: seq<Op>, d: Device) {
    var batches, steps := HistoryOf(Run(EMPTY, ops), d).batches, CloseSteps(ops, d);
    && |steps| == |batches| && Rising(steps, |ops|)
    && forall i :: 0 <= i < |steps| ==> ClosedAt(ops, steps[i], d, batches[i])
  }

  /** The pushing steps of a device rise, one for each message it accepted. */
  ghost predicate PushesRecorded(ops: seq<Op>, d: Device) {
    var accepted, steps := HistoryOf(Run(EMPTY, ops), d).accepted, PushSteps(ops, d);
    && |steps| == |accepted| && Rising(steps, |ops|)
    && forall i :: 0 <= i < |steps| ==> PushedAt(ops, steps[i], d, accepted[i])
  }

  lemma RisingOneMore(steps: seq<nat>, n: nat)
    requires Rising(steps, n)
    ensures Rising(steps, n + 1) && Rising(steps + [n], n + 1)
  {
  }

  /**
   In every run each closed batch is the work of its own step, later batches of later ones: a drain
   by its device that filtered it by the epochs of that step, or its loss.
   */
  lemma {:induction false} EveryBatchIsExplained(ops: seq<Op>, d: Device)
    ensures ClosingsRecorded(ops, d)
    decreases |ops|
  {
    if ops != [] {
      var init, op := ops[..|ops| - 1], ops[|ops| - 1];
      assert ops == init + [op];
      EveryBatchIsExplained(init, d);
      NewBatch(init, op, d);
      RisingOneMore(CloseSteps(init, d), |init|);
      var before, steps := HistoryOf(Run(EMPTY, init), d).batches, CloseSteps(ops, d);
      forall i | 0 <= i < |steps| ensures ClosedAt(ops, steps[i], d, HistoryOf(Run(EMPTY, ops), d).batches[i]) {
        if i < |before| {
          ClosedStays(init, op, steps[i], d, before[i]);
        }
      }
    }
  }

  lemma {:induction false} EveryPushIsRecorded(ops: seq<Op>, d: Device)
    ensures PushesRecorded(ops, d)
    decreases |ops|
  {
    if ops != [] {
      var init, op := ops[..|ops| - 1], ops[|ops| - 1];
      assert ops == init + [op];
      EveryPushIsRecorded(init, d);
      NewPush(init, op, d);
      RisingOneMore(PushSteps(init, d), |init|);
      var before, steps := HistoryOf(Run(EMPTY, init), d).accepted, PushSteps(ops, d);
      forall i | 0 <= i < |steps| ensures PushedAt(ops, steps[i], d, HistoryOf(Run(EMPTY, ops), d).accepted[i]) {
        if i < |before| {
          PushedStays(init, op, steps[i], d, before[i]);
        }
      }
    }
  }

  /** Every run of broker operations from an empty store keeps all of them. */
  lemma {:induction false} EveryRunIsAccountedFor(ops: seq<Op>)
    requires AllEnabled(EMPTY.store, ops)
    ensures Invariant(Run(EMPTY, ops))
    decreases |ops|
  {
    if ops != [] {
      var init, op := ops[..|ops| - 1], ops[|ops| - 1];
      EveryRunIsAccountedFor(init);
      RunStore(EMPTY, init);
      var w := Run(EMPTY, init);
      StepKeepsBalance(w, op);
      StepKeepsQueuesExpiring(w.store, op);
      StepKeepsOwners(w, op);
    }
  }

  /** The balance needs no registered devices. */
  lemma {:induction false} EveryRunIsBalanced(ops: seq<Op>)
    ensures Balanced(Run(EMPTY, ops))
    decreases |ops|
  {
    if ops != [] {
      EveryRunIsBalanced(ops[..|ops| - 1]);
      StepKeepsBalance(Run(EMPTY, ops[..|ops| - 1]), ops[|ops| - 1]);
    }
  }

  // ----- Reading the account of one message -----

  function Before(batches: seq<Batch>, b: nat): nat
    requires b <= |batches|
  {
    |Flat(batches[..b])|
  }

  /** Position `i` of the flattened batches is place `k` of batch `b`. */
  predicate At(batches: seq<Batch>, i: nat, b: nat, k: nat) {
    b < |batches| && k < |batches[b].raw| && Before(batches, b) + k == i
  }

  lemma {:induction false} PlaceInBatches(batches: seq<Batch>, i: nat) returns (b: nat, k: nat)
    requires i < |Flat(batches)|
    ensures At(batches, i, b, k) && batches[b].raw[k] == Flat(batches)[i]
    decreases |batches|
  {
    var init := batches[..|batches| - 1];
    if i < |Flat(init)| {
      b, k := PlaceInBatches(init, i);
      assert init[..b] == batches[..b];
    } else {
      b, k := |batches| - 1, i - |Flat(init)|;
    }
  }

  lemma {:induction false} BeforeGrows(batches: seq<Batch>, a: nat, b: nat)
    requires a < b <= |batches|
    ensures Before(batches, a) + |batches[a].raw| <= Before(batches, b)
    decreases b
  {
    assert batches[..b][..b - 1] == batches[..b - 1];
    if a < b - 1 {
      BeforeGrows(batches, a, b - 1);
    }
  }

  lemma PlaceIsUnique(batches: seq<Batch>, i: nat, b: nat, k: nat, b': nat, k': nat)
    requires At(batches, i, b, k) && At(batches, i, b', k')
    ensures b == b' && k == k'
  {
    if b < b' {
      BeforeGrows(batches, b, b');
    } else if b' < b {
      BeforeGrows(batches, b', b);
    }
  }

  /** An operation on one device leaves every other device's queue alone; only the clock reaches several. */
  lemma OtherQueuesUntouched(st: Store, op: Op, other: Device)
    requires !op.Tick?
    requires op.Remove? || op.Send? || op.Drain? ==> other != op.device
    ensures Messages(Apply(st, op), other) == Messages(st, other)
  {
    if op.Send? {
      SendEffect(st, op.sender, op.device, op.m, op.now, other);
    } else {
      OtherEffect(st, op, other);
    }
  }
}
