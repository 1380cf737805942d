/** How long the broker's keys live: each expiry is the time of the operation that set it and a fixed span. */
module Lifetimes {
  import opened Models
  import opened DrainFilter
  import opened BrokerModel

  // ----- Queues -----

  /** The queue was opened by the message pushed at `t`, and nothing has closed it since. */
  ghost predicate OpenSince(st: Store, d: Device, t: int) {
    d in st.queues && st.queues[d].messages != [] && st.queues[d].expiry == Some(t + 21600)
  }

  /** Step `k` pushed onto an empty queue at `t`, and no later step drained or lost it. */
  ghost predicate OpenedAt(ops: seq<Op>, k: nat, d: Device, t: int) {
    && k < |ops| && ops[k].Send? && ops[k].device == d && ops[k].now == t
    && Accepts(ApplyAll(EMPTY.store, ops[..k]), ops[k].sender, d, ops[k].m)
    && Messages(ApplyAll(EMPTY.store, ops[..k]), d) == []
    && forall i :: k < i < |ops| ==> !Closes(ApplyAll(EMPTY.store, ops[..i]), ops[i], d)
  }

  lemma OpenStep(st: Store, op: Op, d: Device, t: int)
    requires AllExpire(st)
    ensures var opens := op.Send? && op.device == d && op.now == t && Accepts(st, op.sender, d, op.m)
                         && Messages(st, d) == [];
      OpenSince(Apply(st, op), d, t) <==> opens || (OpenSince(st, d, t) && !Closes(st, op, d))
  {
    if op.Send? {
      SendOpens(st, op, d, t);
    } else {
      OtherEffect(st, op, d);
    }
  }

  lemma SendOpens(st: Store, op: Op, d: Device, t: int)
    requires AllExpire(st) && op.Send?
    ensures var opens := op.device == d && op.now == t && Accepts(st, op.sender, d, op.m) && Messages(st, d) == [];
      OpenSince(Apply(st, op), d, t) <==> opens || OpenSince(st, d, t)
  {
  }

  lemma {:induction false} AllExpireAlong(ops: seq<Op>)
    ensures AllExpire(ApplyAll(EMPTY.store, ops))
    decreases |ops|
  {
    if ops != [] {
      AllExpireAlong(ops[..|ops| - 1]);
      var st, op := ApplyAll(EMPTY.store, ops[..|ops| - 1]), ops[|ops| - 1];
      forall d | d in Apply(st, op).queues
        ensures Apply(st, op).queues[d].messages != [] && Apply(st, op).queues[d].expiry.Some?
      {
        ExpiryStep(st, op, d);
      }
    }
  }

  lemma ExpiryStep(st: Store, op: Op, d: Device)
    requires AllExpire(st) && d in Apply(st, op).queues
    ensures Apply(st, op).queues[d].messages != [] && Apply(st, op).queues[d].expiry.Some?
  {
    if !op.Send? {
      OtherEffect(st, op, d);
    }
  }

  lemma OpenedOneMore(ops: seq<Op>, k: nat, d: Device, t: int)
    requires ops != [] && OpenedAt(ops[..|ops| - 1], k, d, t)
    requires !Closes(ApplyAll(EMPTY.store, ops[..|ops| - 1]), ops[|ops| - 1], d)
    ensures OpenedAt(ops, k, d, t)
  {
    var init := ops[..|ops| - 1];
    assert init[..k] == ops[..k] && init[k] == ops[k];
    forall i | k < i < |ops| ensures !Closes(ApplyAll(EMPTY.store, ops[..i]), ops[i], d) {
      assert i < |init| ==> init[..i] == ops[..i] && init[i] == ops[i];
    }
  }

  lemma {:induction false} OpenWasOpened(ops: seq<Op>, d: Device, t: int) returns (k: nat)
    requires OpenSince(ApplyAll(EMPTY.store, ops), d, t)
    ensures OpenedAt(ops, k, d, t)
    decreases |ops|
  {
    var init, op := ops[..|ops| - 1], ops[|ops| - 1];
    var st := ApplyAll(EMPTY.store, init);
    AllExpireAlong(init);
    OpenStep(st, op, d, t);
    if op.Send? && op.device == d && op.now == t && Accepts(st, op.sender, d, op.m) && Messages(st, d) == [] {
      k := |init|;
    } else {
      k := OpenWasOpened(init, d, t);
      OpenedOneMore(ops, k, d, t);
    }
  }

  lemma {:induction false} OpenedIsOpen(ops: seq<Op>, k: nat, d: Device, t: int)
    requires OpenedAt(ops, k, d, t)
    ensures OpenSince(ApplyAll(EMPTY.store, ops), d, t)
    decreases |ops|
  {
    var init, op := ops[..|ops| - 1], ops[|ops| - 1];
    AllExpireAlong(init);
    OpenStep(ApplyAll(EMPTY.store, init), op, d, t);
    if k < |init| {
      assert init[..k] == ops[..k];
      forall i | k < i < |init| ensures !Closes(ApplyAll(EMPTY.store, init[..i]), init[i], d) {
        assert init[..i] == ops[..i] && init[i] == ops[i];
      }
      OpenedIsOpen(init, k, d, t);
    }
  }

  /**
   In every run a queue expires six hours after `t` if and only if the message that opened it was pushed at `t`:
   later messages do not prolong it.
   */
  lemma QueueLivesSixHours(ops: seq<Op>, d: Device, t: int)
    ensures OpenSince(ApplyAll(EMPTY.store, ops), d, t) <==> exists k :: OpenedAt(ops, k, d, t)
  {
    if OpenSince(ApplyAll(EMPTY.store, ops), d, t) {
      var k := OpenWasOpened(ops, d, t);
    }
    if k :| OpenedAt(ops, k, d, t) {
      OpenedIsOpen(ops, k, d, t);
    }
  }

  /** And the clock takes it away exactly then, with everything in it, and nothing before. */
  lemma QueueExpiresIff(st: Store, d: Device, t: int, now: int)
    requires OpenSince(st, d, t)
    ensures d in Apply(st, Tick(now)).queues <==> now < t + 21600
    ensures Messages(Apply(st, Tick(now)), d) == if now < t + 21600 then Messages(st, d) else []
  {
  }

  // ----- Registries -----

  /** A registration or a heartbeat of any of the user's sessions, readable or not, prolongs the whole registry. */
  lemma RegistryLivesAWeek(st: Store, user: string, session: string, node: string, t: int, now: int)
    ensures var r := Apply(Apply(st, Register(user, session, node, t)), Tick(now));
      (user in r.registries <==> now < t + 604800) && (user in r.registryExpiry <==> now < t + 604800)
    ensures user in st.registries ==>
      (user in Apply(Apply(st, Refresh(user, session, t)), Tick(now)).registries <==> now < t + 604800)
    ensures user !in st.registries ==> Apply(st, Refresh(user, session, t)) == st
  {
  }

  // ----- Rate counters -----

  /** An accepted send that opens a window gives it sixty seconds; a later one in the window does not prolong it. */
  lemma WindowLivesAMinute(st: Store, sender: string, d: Device, m: Message, t: int, now: int)
    requires Accepts(st, sender, d, m)
    ensures var after := Apply(st, Send(sender, d, m, t));
      && Count(after.senders, sender) == Count(st.senders, sender) + 1
      && Count(after.pairs, Pair(sender, d)) == Count(st.pairs, Pair(sender, d)) + 1
      && after.senders[sender].expiry == (if sender !in st.senders || st.senders[sender].count == 0 then Some(t + 60)
                                          else st.senders[sender].expiry)
      && after.pairs[Pair(sender, d)].expiry ==
           (if Pair(sender, d) !in st.pairs || st.pairs[Pair(sender, d)].count == 0 then Some(t + 60)
            else st.pairs[Pair(sender, d)].expiry)
    ensures sender !in st.senders ==>
      (sender in Apply(Apply(st, Send(sender, d, m, t)), Tick(now)).senders <==> now < t + 60)
    ensures Pair(sender, d) !in st.pairs ==>
      (Pair(sender, d) in Apply(Apply(st, Send(sender, d, m, t)), Tick(now)).pairs <==> now < t + 60)
  {
  }

  /** Counters are per sender, and per sender and recipient whatever the device; no others change. */
  lemma OtherCountersStay(
    st: Store, sender: string, d: Device, m: Message, t: int, other: string, pair: (string, string))
    ensures var after := Apply(st, Send(sender, d, m, t));
      && (other != sender ==>
            (other in after.senders <==> other in st.senders)
            && (other in st.senders ==> after.senders[other] == st.senders[other]))
      && (pair != (sender, d.user) ==>
            (pair in after.pairs <==> pair in st.pairs) && (pair in st.pairs ==> after.pairs[pair] == st.pairs[pair]))
  {
  }

  /** A message goes through if and only if it fits, both windows have room, and the queue has room. */
  lemma AcceptedIff(st: Store, sender: string, d: Device, m: Message)
    ensures Accepts(st, sender, d, m) <==>
      && |m.body| <= 4096
      && (sender in st.senders ==> st.senders[sender].count < 120)
      && ((sender, d.user) in st.pairs ==> st.pairs[(sender, d.user)].count < 30)
      && (d in st.queues ==> |st.queues[d].messages| < 100)
  {
  }

  // ----- Registries and their expiry -----

  /** Each stored registry has an expiry and a session, and no expiry is left without its registry. */
  ghost predicate RegistriesExpire(st: Store) {
    && st.registries.Keys == st.registryExpiry.Keys
    && forall user :: user in st.registries ==> st.registries[user] != map[]
  }

  lemma RegisterKeepsExpiring(st: Store, user: string, session: string, node: string, now: int)
    requires RegistriesExpire(st)
    ensures RegistriesExpire(Apply(st, Register(user, session, node, now)))
  {
    assert session in RegistryOf(Apply(st, Register(user, session, node, now)), user);
  }

  lemma RefreshKeepsExpiring(st: Store, user: string, session: string, now: int)
    requires RegistriesExpire(st)
    ensures RegistriesExpire(Apply(st, Refresh(user, session, now)))
  {
    if user in st.registries {
      var r := st.registries[user];
      ReplacedKeepsKeys(st.registryExpiry, user, now + DEVICE_TTL);
      if session in r && r[session].Parsed? {
        var touched := r[session := r[session].(lastSeen := now)];
        assert session in touched;
        ReplacedKeepsKeys(st.registries, user, touched);
      }
    }
  }

  lemma ReplacedKeepsKeys<K, T>(m: map<K, T>, k: K, value: T)
    requires k in m
    ensures m[k := value].Keys == m.Keys
  {
  }

  lemma RemoveKeepsExpiring(st: Store, d: Device)
    requires RegistriesExpire(st)
    ensures RegistriesExpire(Apply(st, Remove(d)))
  {
    var left := RegistryOf(st, d.user) - {d.session};
    assert left != map[] ==> d.user in st.registries;
  }

  lemma TickKeepsExpiring(st: Store, now: int)
    requires RegistriesExpire(st)
    ensures RegistriesExpire(Apply(st, Tick(now)))
  {
  }

  lemma StepKeepsRegistriesExpiring(st: Store, op: Op)
    requires RegistriesExpire(st)
    ensures RegistriesExpire(Apply(st, op))
  {
    match op {
      case Register(user, session, node, now) => RegisterKeepsExpiring(st, user, session, node, now);
      case Refresh(user, session, now) => RefreshKeepsExpiring(st, user, session, now);
      case Remove(d) => RemoveKeepsExpiring(st, d);
      case Tick(now) => TickKeepsExpiring(st, now);
      case _ =>
    }
  }

  /** In every run. */
  lemma {:induction false} EveryRegistryExpires(ops: seq<Op>)
    ensures RegistriesExpire(ApplyAll(EMPTY.store, ops))
    decreases |ops|
  {
    if ops != [] {
      EveryRegistryExpires(ops[..|ops| - 1]);
      StepKeepsRegistriesExpiring(ApplyAll(EMPTY.store, ops[..|ops| - 1]), ops[|ops| - 1]);
    }
  }
}
