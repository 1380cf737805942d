/**
 The broker's functions as methods on the shared store. Each is one atomic step
 of the model, or a loop of them; the loops report the steps they took.
 */
module Broker {
  import opened Models
  import opened Collections
  import opened DrainFilter
  import opened BrokerModel
  import opened DeviceCap

  // ----- Sessions of a registry -----

  predicate Stale(e: Entry, now: int) {
    e.Corrupt? || now - e.lastSeen > DEVICE_TTL
  }

  predicate Online(e: Entry, now: int) {
    e.Parsed? && now - e.lastSeen <= HEARTBEAT_TIMEOUT
  }

  ghost function StaleSessions(r: Registry, now: int): set<string> {
    set s | s in r && Stale(r[s], now)
  }

  ghost function OnlineSessions(r: Registry, now: int): set<string> {
    set s | s in r && !Stale(r[s], now) && Online(r[s], now)
  }

  ghost function WaitingSessions(r: Registry, now: int): set<string> {
    set s | s in r && !Stale(r[s], now) && !Online(r[s], now)
  }

  /** `ss` lists the elements of `keys`, once each. */
  ghost predicate Lists(ss: seq<string>, keys: set<string>) {
    Distinct(ss) && Leading(ss, |ss|) == keys
  }

  lemma ListsAppend(ss: seq<string>, keys: set<string>, s: string)
    requires Lists(ss, keys) && s !in keys
    ensures Lists(ss + [s], keys + {s})
  {
    LeadingOfAppend(ss, s, |ss|);
    forall i | 0 <= i < |ss| ensures ss[i] in keys {
      LeadingMembers(ss, |ss|, ss[i]);
    }
  }

  lemma ListsMember(ss: seq<string>, keys: set<string>, i: nat)
    requires Lists(ss, keys) && i < |ss|
    ensures ss[i] in keys
  {
    LeadingMembers(ss, |ss|, ss[i]);
  }

  // ----- Sequences of steps -----

  ghost function Removals(user: string, ss: seq<string>): seq<Op>
    decreases |ss|
  {
    if ss == [] then [] else Removals(user, ss[..|ss| - 1]) + [Remove(Device(user, ss[|ss| - 1]))]
  }

  ghost function Sends(sender: string, user: string, ss: seq<string>, m: Message, now: int): seq<Op>
    decreases |ss|
  {
    if ss == [] then []
    else Sends(sender, user, ss[..|ss| - 1], m, now) + [Send(sender, Device(user, ss[|ss| - 1]), m, now)]
  }

  lemma OneMore(st: Store, ops: seq<Op>, op: Op)
    ensures ApplyAll(st, ops + [op]) == Apply(ApplyAll(st, ops), op)
    ensures AllEnabled(st, ops + [op]) <==> AllEnabled(st, ops) && Enabled(ApplyAll(st, ops), op)
  {
    assert (ops + [op])[..|ops|] == ops;
  }

  /** The registry after removing some of its sessions. */
  lemma {:induction false} RemovalsShrinkRegistry(st: Store, user: string, ss: seq<string>)
    ensures RegistryOf(ApplyAll(st, Removals(user, ss)), user) == RegistryOf(st, user) - Leading(ss, |ss|)
    ensures AllEnabled(st, Removals(user, ss))
    decreases |ss|
  {
    if ss != [] {
      var init, last := ss[..|ss| - 1], ss[|ss| - 1];
      var before := ApplyAll(st, Removals(user, init));
      RemovalsShrinkRegistry(st, user, init);
      OneMore(st, Removals(user, init), Remove(Device(user, last)));
      RemoveShrinksRegistry(before, Device(user, last));
      LastLeads(ss);
      MinusTwice(RegistryOf(st, user), Leading(init, |init|), last);
    }
  }

  lemma LastLeads(ss: seq<string>)
    requires ss != []
    ensures Leading(ss, |ss|) == Leading(ss[..|ss| - 1], |ss| - 1) + {ss[|ss| - 1]}
  {
    var init, last := ss[..|ss| - 1], ss[|ss| - 1];
    assert init + [last] == ss;
    LeadingOfAppend(init, last, |init|);
  }

  lemma MinusTwice(r: Registry, keys: set<string>, s: string)
    ensures r - keys - {s} == r - (keys + {s})
  {
  }

  lemma RemoveShrinksRegistry(st: Store, d: Device)
    ensures RegistryOf(WithoutDevice(st, d), d.user) == RegistryOf(st, d.user) - {d.session}
  {
  }

  lemma {:induction false} SendsKeepRegistries(
    st: Store, sender: string, user: string, ss: seq<string>, m: Message, now: int)
    requires forall i :: 0 <= i < |ss| ==> ss[i] in RegistryOf(st, user)
    ensures ApplyAll(st, Sends(sender, user, ss, m, now)).registries == st.registries
    ensures AllEnabled(st, Sends(sender, user, ss, m, now))
    decreases |ss|
  {
    if ss != [] {
      var init, last := ss[..|ss| - 1], ss[|ss| - 1];
      SendsKeepRegistries(st, sender, user, init, m, now);
      var ops := Sends(sender, user, init, m, now);
      OneMore(st, ops, Send(sender, Device(user, last), m, now));
      SendEffect(ApplyAll(st, ops), sender, Device(user, last), m, now, Device(user, last));
    }
  }

  // ----- The broker -----

  class Broker {
    var registries: map<string, Registry>
    var registryExpiry: map<string, int>
    var queues: map<Device, Queue>
    var pairs: map<(string, string), Counter>
    var senders: map<string, Counter>
    var epochs: Epochs

    constructor ()
      ensures St() == EMPTY.store
    {
      registries, registryExpiry, queues := map[], map[], map[];
      pairs, senders, epochs := map[], map[], map[];
    }

    function St(): Store
      reads this
    {
      Store(registries, registryExpiry, queues, pairs, senders, epochs)
    }

    /** Unregistering, forgetting, evicting and pruning a device: its entry and its queue go together. */
    method RemoveDevice(d: Device)
      modifies this
      ensures St() == Apply(old(St()), Remove(d))
    {
      var left := RegistryOf(St(), d.user) - {d.session};
      if left == map[] {
        registries, registryExpiry := registries - {d.user}, registryExpiry - {d.user};
      } else {
        registries := registries[d.user := left];
      }
      queues := queues - {d};
    }

    method RemoveEach(user: string, ss: seq<string>)
      modifies this
      ensures St() == ApplyAll(old(St()), Removals(user, ss))
    {
      ghost var st := St();
      for i := 0 to |ss|
        invariant St() == ApplyAll(st, Removals(user, ss[..i]))
      {
        assert ss[..i + 1][..i] == ss[..i];
        RemoveDevice(Device(user, ss[i]));
        OneMore(st, Removals(user, ss[..i]), Remove(Device(user, ss[i])));
      }
      assert ss[..|ss|] == ss;
    }

    /** Insert or refresh the entry, then evict the oldest sessions beyond the cap. */
    method RegisterUser(user: string, node: string, session: string, now: int) returns (ghost evicted: seq<string>)
      modifies this
      ensures St() == ApplyAll(Apply(old(St()), Register(user, session, node, now)), Removals(user, evicted))
      ensures Proper(old(St()), Enroll(user, session, node, now, evicted))
      ensures CapHolds(RegistryOf(old(St()), user)[session := Parsed(node, now)], RegistryOf(St(), user), session)
    {
      Enter(user, session, node, now);
      var before := registries[user];
      ghost var st := St();
      var goners;
      ghost var order;
      goners, order := Overflow(before, session);
      EvictionKeepsCap(st, user, before, order, goners, session);
      RemoveEach(user, goners);
      evicted := goners;
    }

    method Enter(user: string, session: string, node: string, now: int)
      modifies this
      ensures St() == Apply(old(St()), Register(user, session, node, now))
      ensures user in registries && registries[user] == RegistryOf(old(St()), user)[session := Parsed(node, now)]
    {
      registries := registries[user := RegistryOf(St(), user)[session := Parsed(node, now)]];
      registryExpiry := registryExpiry[user := now + DEVICE_TTL];
    }

    /** Refresh `last_seen` of a parseable entry and prolong the registry. */
    method RefreshUserTtl(user: string, session: string, now: int)
      modifies this
      ensures St() == Apply(old(St()), Refresh(user, session, now))
    {
      var r := RegistryOf(St(), user);
      if session in r && r[session].Parsed? {
        registries := registries[user := r[session := r[session].(lastSeen := now)]];
      }
      if user in registries {
        registryExpiry := registryExpiry[user := now + DEVICE_TTL];
      }
    }

    /** List a user's sessions and prune the stale ones. */
    method ListKnownSessions(user: string, now: int)
      returns (online: seq<string>, waiting: seq<string>, ghost pruned: seq<string>)
      modifies this
      ensures Lists(pruned, StaleSessions(RegistryOf(old(St()), user), now))
      ensures Lists(online, OnlineSessions(RegistryOf(old(St()), user), now))
      ensures Lists(waiting, WaitingSessions(RegistryOf(old(St()), user), now))
      ensures St() == ApplyAll(old(St()), Removals(user, pruned))
    {
      var stale;
      online, waiting, stale := SplitSessions(RegistryOf(St(), user), now);
      RemoveEach(user, stale);
      pruned := stale;
    }

    method QueueOfflineMessage(sender: string, d: Device, m: Message, now: int) returns (ok: bool)
      modifies this
      ensures St() == Apply(old(St()), Send(sender, d, m, now))
      ensures ok <==> Accepts(old(St()), sender, d, m)
    {
      if |m.body| > MAX_MESSAGE_BYTES {
        return false;
      }
      senders := Bumped(senders, sender);
      pairs := Bumped(pairs, Pair(sender, d));
      var globalCount, pairCount := senders[sender].count, pairs[Pair(sender, d)].count;
      var queued := Messages(St(), d);
      if globalCount > RATE_MAX_GLOBAL || pairCount > RATE_MAX_PAIR || |queued| >= QUEUE_MAX_DEPTH {
        return false;
      }
      if globalCount == 1 {
        senders := senders[sender := senders[sender].(expiry := Some(now + RATE_WINDOW))];
      }
      if pairCount == 1 {
        pairs := pairs[Pair(sender, d) := pairs[Pair(sender, d)].(expiry := Some(now + RATE_WINDOW))];
      }
      var expiry := if d in queues then queues[d].expiry else None;
      if queued == [] {
        expiry := Some(now + QUEUE_TTL);
      }
      queues := queues[d := Queue(queued + [m], expiry)];
      ok := true;
    }

    /** Take everything from a device's queue and return what the epoch filter keeps. */
    method DrainOfflineQueue(d: Device, up: nat -> bool) returns (filtered: seq<Message>)
      modifies this
      ensures St() == Apply(old(St()), Drain(d, up))
      ensures filtered == KeptAt(Messages(old(St()), d), epochs, up)
    {
      var messages := Messages(St(), d);
      queues := queues - {d};
      var current := epochs;
      filtered := FilterPrePurge(messages, _ => current, up);
    }

    method SetChannelEpoch(channel: string, epoch: int)
      modifies this
      ensures St() == Apply(old(St()), SetEpoch(channel, epoch))
    {
      epochs := epochs[channel := epoch];
    }

    /** Deliver to one recipient: online sessions are counted, the other known ones get the message queued. */
    method RelayToUser(sender: string, user: string, m: Message, now: int)
      returns (online: nat, ghost pruned: seq<string>, ghost queuedFor: seq<string>)
      modifies this
      ensures var r := RegistryOf(old(St()), user);
        && Lists(pruned, StaleSessions(r, now))
        && Lists(queuedFor, WaitingSessions(r, now))
        && online == |OnlineSessions(r, now)|
      ensures var ops := Removals(user, pruned) + Sends(sender, user, queuedFor, m, now);
        St() == ApplyAll(old(St()), ops) && AllEnabled(old(St()), ops)
      ensures SameLive(old(St()), St(), now)
    {
      var on, waiting;
      ghost var st0 := St();
      on, waiting, pruned := ListKnownSessions(user, now);
      ghost var st := St();
      for i := 0 to |waiting|
        invariant St() == ApplyAll(st, Sends(sender, user, waiting[..i], m, now))
      {
        assert waiting[..i + 1][..i] == waiting[..i];
        var ok := QueueOfflineMessage(sender, Device(user, waiting[i]), m, now);
        OneMore(st, Sends(sender, user, waiting[..i], m, now), Send(sender, Device(user, waiting[i]), m, now));
      }
      assert waiting[..|waiting|] == waiting;
      online, queuedFor := |on|, waiting;
      LeadingSize(on, |on|);
      RelayStepsEnabled(st0, sender, user, pruned, waiting, m, now);
    }

    /** Deliver to every recipient but the sender: every session known at the call is counted or served. */
    method RelayDmMessage(sender: string, recipients: seq<string>, m: Message, now: int)
      returns (online: nat, ghost ops: seq<Op>)
      modifies this
      ensures St() == ApplyAll(old(St()), ops) && AllEnabled(old(St()), ops)
      ensures Reached(old(St()), sender, recipients, m, now, online, ops)
      ensures SameLive(old(St()), St(), now)
    {
      online, ops := 0, [];
      ghost var st := St();
      for i := 0 to |recipients|
        invariant St() == ApplyAll(st, ops) && AllEnabled(st, ops)
        invariant SameLive(st, St(), now)
        invariant Reached(st, sender, recipients[..i], m, now, online, ops)
      {
        assert recipients[..i + 1] == recipients[..i] + [recipients[i]];
        if recipients[i] != sender {
          ghost var pruned, queuedFor;
          var n;
          ghost var mid := St();
          n, pruned, queuedFor := RelayToUser(sender, recipients[i], m, now);
          assert LiveOf(mid, recipients[i], now) == LiveOf(st, recipients[i], now);
          ghost var more := Removals(recipients[i], pruned) + Sends(sender, recipients[i], queuedFor, m, now);
          ApplyAllConcat(st, ops, more);
          ReachOneMore(st, sender, recipients[..i], recipients[i], m, now, online, ops, pruned, queuedFor);
          online, ops := online + n, ops + more;
        }
      }
      assert recipients[..|recipients|] == recipients;
    }
  }

  ghost predicate EvictsOldest(before: Registry, evicted: seq<string>, session: string) {
    exists order :: OldestFirst(order, before.Keys, before) && Lists(evicted, Evicted(order, session))
  }

  lemma EvictionKeepsCap(
    st: Store, user: string, before: Registry, order: seq<string>, goners: seq<string>, session: string)
    requires before == RegistryOf(st, user) && session in before
    requires OldestFirst(order, before.Keys, before) && Lists(goners, Evicted(order, session))
    ensures CapHolds(before, RegistryOf(ApplyAll(st, Removals(user, goners)), user), session)
  {
    RemovalsShrinkRegistry(st, user, goners);
    EvictionMeetsCap(before, order, session);
  }

  /** The sessions beyond the cap in last-seen order, skipping the one just registered. */
  method Overflow(before: Registry, session: string) returns (goners: seq<string>, ghost order: seq<string>)
    ensures OldestFirst(order, before.Keys, before) && Lists(goners, Evicted(order, session))
  {
    goners := [];
    var sorted := SortByLastSeen(before);
    order := sorted;
    LeadingSize(sorted, |sorted|);
    if |before| > MAX_DEVICES {
      goners := FrontExcept(sorted, |sorted| - MAX_DEVICES, session);
    }
  }

  method FrontExcept(order: seq<string>, count: nat, session: string) returns (front: seq<string>)
    requires count <= |order| && Distinct(order)
    ensures Lists(front, Leading(order, count) - {session})
  {
    front := [];
    for i := 0 to count
      invariant Lists(front, Leading(order, i) - {session})
    {
      if order[i] != session {
        LeadingMembers(order, i, order[i]);
        ListsAppend(front, Leading(order, i) - {session}, order[i]);
        front := front + [order[i]];
        assert Leading(order, i) - {session} + {order[i]} == Leading(order, i + 1) - {session};
      } else {
        assert Leading(order, i) - {session} == Leading(order, i + 1) - {session};
      }
    }
  }

  /** Walk a registry in any order and sort its sessions by state. */
  method SplitSessions(r: Registry, now: int)
    returns (online: seq<string>, waiting: seq<string>, stale: seq<string>)
    ensures Lists(stale, StaleSessions(r, now))
    ensures Lists(online, OnlineSessions(r, now))
    ensures Lists(waiting, WaitingSessions(r, now))
  {
    online, waiting, stale := [], [], [];
    var rest := r.Keys;
    while rest != {}
      invariant rest <= r.Keys
      invariant Lists(stale, StaleSessions(r, now) - rest)
      invariant Lists(online, OnlineSessions(r, now) - rest)
      invariant Lists(waiting, WaitingSessions(r, now) - rest)
      decreases rest
    {
      var s :| s in rest;
      ghost var was := rest;
      rest := rest - {s};
      if Stale(r[s], now) {
        ListsAppend(stale, StaleSessions(r, now) - was, s);
        stale := stale + [s];
      } else if Online(r[s], now) {
        ListsAppend(online, OnlineSessions(r, now) - was, s);
        online := online + [s];
      } else {
        ListsAppend(waiting, WaitingSessions(r, now) - was, s);
        waiting := waiting + [s];
      }
      AddBack(StaleSessions(r, now), was, s);
      AddBack(OnlineSessions(r, now), was, s);
      AddBack(WaitingSessions(r, now), was, s);
    }
    assert rest == {};
    assert StaleSessions(r, now) - rest == StaleSessions(r, now);
    assert OnlineSessions(r, now) - rest == OnlineSessions(r, now);
    assert WaitingSessions(r, now) - rest == WaitingSessions(r, now);
  }

  lemma AddBack(keys: set<string>, rest: set<string>, s: string)
    requires s in rest
    ensures keys - (rest - {s}) == if s in keys then keys - rest + {s} else keys - rest
  {
  }

  lemma RelayStepsEnabled(
    st: Store, sender: string, user: string, pruned: seq<string>, waiting: seq<string>, m: Message, now: int)
    requires Lists(pruned, StaleSessions(RegistryOf(st, user), now))
    requires Lists(waiting, WaitingSessions(RegistryOf(st, user), now))
    ensures var ops := Removals(user, pruned) + Sends(sender, user, waiting, m, now);
      && AllEnabled(st, ops)
      && SameLive(st, ApplyAll(st, ops), now)
      && ApplyAll(st, ops) == ApplyAll(ApplyAll(st, Removals(user, pruned)), Sends(sender, user, waiting, m, now))
  {
    var st1 := ApplyAll(st, Removals(user, pruned));
    RemovalsShrinkRegistry(st, user, pruned);
    forall i | 0 <= i < |waiting| ensures waiting[i] in RegistryOf(st1, user) {
      ListsMember(waiting, WaitingSessions(RegistryOf(st, user), now), i);
    }
    SendsKeepRegistries(st1, sender, user, waiting, m, now);
    ApplyAllConcat(st, Removals(user, pruned), Sends(sender, user, waiting, m, now));
    RelayKeepsLive(st, user, pruned, ApplyAll(st1, Sends(sender, user, waiting, m, now)), now);
  }

  // ----- What a relay reaches -----

  /** Neither the online nor the waiting sessions of any user have changed. */
  ghost predicate SameLive(st: Store, after: Store, now: int) {
    forall user :: LiveOf(after, user, now) == LiveOf(st, user, now)
  }

  ghost function LiveOf(st: Store, user: string, now: int): (set<string>, set<string>) {
    (OnlineSessions(RegistryOf(st, user), now), WaitingSessions(RegistryOf(st, user), now))
  }

  ghost function OnlineTotal(st: Store, sender: string, recipients: seq<string>, now: int): nat {
    if recipients == [] then 0
    else
      var user := recipients[|recipients| - 1];
      OnlineTotal(st, sender, recipients[..|recipients| - 1], now)
      + if user == sender then 0 else |LiveOf(st, user, now).0|
  }

  ghost function WaitingTotal(st: Store, sender: string, recipients: seq<string>, now: int): nat {
    if recipients == [] then 0
    else
      var user := recipients[|recipients| - 1];
      WaitingTotal(st, sender, recipients[..|recipients| - 1], now)
      + if user == sender then 0 else |LiveOf(st, user, now).1|
  }

  ghost function SendCount(ops: seq<Op>): nat {
    if ops == [] then 0 else SendCount(ops[..|ops| - 1]) + if ops[|ops| - 1].Send? then 1 else 0
  }

  /** Each of the user's waiting sessions has a send among the steps. */
  ghost predicate Serves(ops: seq<Op>, st: Store, sender: string, user: string, m: Message, now: int) {
    forall s :: s in WaitingSessions(RegistryOf(st, user), now) ==> Send(sender, Device(user, s), m, now) in ops
  }

  lemma {:induction false} SendCountConcat(a: seq<Op>, b: seq<Op>)
    ensures SendCount(a + b) == SendCount(a) + SendCount(b)
    decreases |b|
  {
    if b == [] {
      assert a + b == a;
    } else {
      SendCountConcat(a, b[..|b| - 1]);
      assert (a + b)[..|a + b| - 1] == a + b[..|b| - 1];
    }
  }

  lemma {:induction false} NoSendsInRemovals(user: string, ss: seq<string>)
    ensures SendCount(Removals(user, ss)) == 0
    decreases |ss|
  {
    if ss != [] {
      NoSendsInRemovals(user, ss[..|ss| - 1]);
      SendCountConcat(Removals(user, ss[..|ss| - 1]), [Remove(Device(user, ss[|ss| - 1]))]);
    }
  }

  lemma {:induction false} SendsAreSends(sender: string, user: string, ss: seq<string>, m: Message, now: int)
    ensures SendCount(Sends(sender, user, ss, m, now)) == |ss|
    ensures |Sends(sender, user, ss, m, now)| == |ss|
    ensures forall i :: 0 <= i < |ss| ==>
      Sends(sender, user, ss, m, now)[i] == Send(sender, Device(user, ss[i]), m, now)
    decreases |ss|
  {
    if ss != [] {
      var init, last := ss[..|ss| - 1], ss[|ss| - 1];
      SendsAreSends(sender, user, init, m, now);
      SendCountConcat(Sends(sender, user, init, m, now), [Send(sender, Device(user, last), m, now)]);
    }
  }

  /** The whole of a relay to `done`: everyone online is counted, everyone waiting is sent to, nobody else is. */
  ghost predicate Reached(
    st: Store, sender: string, done: seq<string>, m: Message, now: int, online: nat, ops: seq<Op>)
  {
    && online == OnlineTotal(st, sender, done, now)
    && SendCount(ops) == WaitingTotal(st, sender, done, now)
    && forall user :: user in done && user != sender ==> Serves(ops, st, sender, user, m, now)
  }

  lemma ReachOneMore(
    st: Store, sender: string, done: seq<string>, user: string, m: Message, now: int, online: nat, ops: seq<Op>,
    pruned: seq<string>, waiting: seq<string>)
    requires Reached(st, sender, done, m, now, online, ops) && user != sender
    requires Lists(waiting, WaitingSessions(RegistryOf(st, user), now))
    ensures Reached(st, sender, done + [user], m, now, online + |LiveOf(st, user, now).0|,
                    ops + (Removals(user, pruned) + Sends(sender, user, waiting, m, now)))
  {
    assert (done + [user])[..|done|] == done;
    RelayServes(st, sender, user, pruned, waiting, m, now, ops);
  }

  lemma ServesAmong(
    st: Store, sender: string, user: string, waiting: seq<string>, m: Message, now: int, ops: seq<Op>)
    requires Lists(waiting, WaitingSessions(RegistryOf(st, user), now))
    ensures Serves(ops + Sends(sender, user, waiting, m, now), st, sender, user, m, now)
  {
    var sends := Sends(sender, user, waiting, m, now);
    SendsAreSends(sender, user, waiting, m, now);
    forall s | s in WaitingSessions(RegistryOf(st, user), now)
      ensures Send(sender, Device(user, s), m, now) in ops + sends
    {
      LeadingMembers(waiting, |waiting|, s);
      var i :| 0 <= i < |waiting| && waiting[i] == s;
      assert (ops + sends)[|ops| + i] == sends[i];
    }
  }

  lemma RelayCount(
    sender: string, user: string, pruned: seq<string>, waiting: seq<string>, m: Message, now: int, ops: seq<Op>)
    ensures SendCount(ops + (Removals(user, pruned) + Sends(sender, user, waiting, m, now)))
         == SendCount(ops) + |waiting|
  {
    SendCountConcat(ops, Removals(user, pruned) + Sends(sender, user, waiting, m, now));
    SendCountConcat(Removals(user, pruned), Sends(sender, user, waiting, m, now));
    NoSendsInRemovals(user, pruned);
    SendsAreSends(sender, user, waiting, m, now);
  }

  lemma Regroup(a: seq<Op>, b: seq<Op>, c: seq<Op>)
    ensures a + (b + c) == a + b + c
  {
  }

  lemma RelayServes(
    st: Store, sender: string, user: string, pruned: seq<string>, waiting: seq<string>, m: Message, now: int,
    ops: seq<Op>)
    requires Lists(waiting, WaitingSessions(RegistryOf(st, user), now))
    ensures var more := Removals(user, pruned) + Sends(sender, user, waiting, m, now);
      && SendCount(ops + more) == SendCount(ops) + |LiveOf(st, user, now).1|
      && Serves(ops + more, st, sender, user, m, now)
  {
    RelayCount(sender, user, pruned, waiting, m, now, ops);
    LeadingSize(waiting, |waiting|);
    Regroup(ops, Removals(user, pruned), Sends(sender, user, waiting, m, now));
    ServesAmong(st, sender, user, waiting, m, now, ops + Removals(user, pruned));
  }

  /** Removing stale sessions leaves the live ones of every user. */
  lemma {:induction false} PruningKeepsOthers(st: Store, user: string, ss: seq<string>, other: string)
    requires other != user
    ensures RegistryOf(ApplyAll(st, Removals(user, ss)), other) == RegistryOf(st, other)
    decreases |ss|
  {
    if ss != [] {
      PruningKeepsOthers(st, user, ss[..|ss| - 1], other);
      OneMore(st, Removals(user, ss[..|ss| - 1]), Remove(Device(user, ss[|ss| - 1])));
    }
  }

  lemma PruningKeepsLive(r: Registry, now: int)
    ensures OnlineSessions(r - StaleSessions(r, now), now) == OnlineSessions(r, now)
    ensures WaitingSessions(r - StaleSessions(r, now), now) == WaitingSessions(r, now)
  {
  }

  lemma PrunedKeepsOwnLive(st: Store, user: string, pruned: seq<string>, now: int)
    requires Lists(pruned, StaleSessions(RegistryOf(st, user), now))
    ensures LiveOf(ApplyAll(st, Removals(user, pruned)), user, now) == LiveOf(st, user, now)
  {
    var r := RegistryOf(st, user);
    RemovalsShrinkRegistry(st, user, pruned);
    PruningKeepsLive(r, now);
    assert RegistryOf(ApplyAll(st, Removals(user, pruned)), user) == r - StaleSessions(r, now);
  }

  lemma PrunedKeepsLive(st: Store, user: string, pruned: seq<string>, now: int, other: string)
    requires Lists(pruned, StaleSessions(RegistryOf(st, user), now))
    ensures LiveOf(ApplyAll(st, Removals(user, pruned)), other, now) == LiveOf(st, other, now)
  {
    if other == user {
      PrunedKeepsOwnLive(st, user, pruned, now);
    } else {
      PruningKeepsOthers(st, user, pruned, other);
    }
  }

  lemma RelayKeepsLive(st: Store, user: string, pruned: seq<string>, after: Store, now: int)
    requires Lists(pruned, StaleSessions(RegistryOf(st, user), now))
    requires after.registries == ApplyAll(st, Removals(user, pruned)).registries
    ensures SameLive(st, after, now)
  {
    var mid := ApplyAll(st, Removals(user, pruned));
    forall other ensures LiveOf(after, other, now) == LiveOf(st, other, now) {
      PrunedKeepsLive(st, user, pruned, now, other);
      assert LiveOf(after, other, now) == LiveOf(mid, other, now);
    }
  }

  // ----- The device cap over whole runs -----

  /** A registration with its evictions, or any other operation. */
  datatype Call =
    | Enroll(user: string, session: string, node: string, now: int, evicted: seq<string>)
    | Other(op: Op)

  function Entered(st: Store, call: Call): Registry
    requires call.Enroll?
  {
    RegistryOf(st, call.user)[call.session := Parsed(call.node, call.now)]
  }

  ghost function AfterCall(st: Store, call: Call): Store {
    match call
    case Enroll(user, session, node, now, evicted) =>
      ApplyAll(Apply(st, Register(user, session, node, now)), Removals(user, evicted))
    case Other(op) => Apply(st, op)
  }

  /** A registration evicts the oldest sessions beyond the cap, in some order by last-seen time, except its own. */
  ghost predicate Proper(st: Store, call: Call) {
    match call
    case Enroll(_, session, _, _, evicted) => EvictsOldest(Entered(st, call), evicted, session)
    case Other(op) => !op.Register?
  }

  ghost function AfterCalls(calls: seq<Call>): Store
    decreases |calls|
  {
    if calls == [] then EMPTY.store else AfterCall(AfterCalls(calls[..|calls| - 1]), calls[|calls| - 1])
  }

  ghost predicate AllProper(calls: seq<Call>)
    decreases |calls|
  {
    calls == [] ||
    (AllProper(calls[..|calls| - 1]) && Proper(AfterCalls(calls[..|calls| - 1]), calls[|calls| - 1]))
  }

  lemma OtherOpsAddNoSession(st: Store, op: Op, user: string)
    requires !op.Register?
    ensures RegistryOf(Apply(st, op), user).Keys <= RegistryOf(st, user).Keys
  {
  }

  /** What a registration leaves of the user's sessions follows from which ones it evicts. */
  lemma EnrollMeetsCap(st: Store, call: Call)
    requires call.Enroll? && Proper(st, call)
    ensures CapHolds(Entered(st, call), RegistryOf(AfterCall(st, call), call.user), call.session)
  {
    var entered := Apply(st, Register(call.user, call.session, call.node, call.now));
    var before := Entered(st, call);
    assert RegistryOf(entered, call.user) == before;
    var order :| OldestFirst(order, before.Keys, before) && Lists(call.evicted, Evicted(order, call.session));
    EvictionKeepsCap(entered, call.user, before, order, call.evicted, call.session);
  }

  lemma CallKeepsCap(st: Store, call: Call, user: string)
    requires Proper(st, call) && |RegistryOf(st, user)| <= MAX_DEVICES + 1
    ensures |RegistryOf(AfterCall(st, call), user)| <= MAX_DEVICES + 1
  {
    match call {
      case Enroll(owner, session, node, now, evicted) =>
        if owner != user {
          PruningKeepsOthers(Apply(st, Register(owner, session, node, now)), owner, evicted, user);
        } else {
          EnrollMeetsCap(st, call);
        }
      case Other(op) =>
        OtherOpsAddNoSession(st, op, user);
        SubsetSize(RegistryOf(Apply(st, op), user).Keys, RegistryOf(st, user).Keys);
    }
  }

  /** In every run nobody ever has more than nine devices registered. */
  lemma {:induction false} EveryRunCapped(calls: seq<Call>, user: string)
    requires AllProper(calls)
    ensures |RegistryOf(AfterCalls(calls), user)| <= 9
    decreases |calls|
  {
    if calls != [] {
      EveryRunCapped(calls[..|calls| - 1], user);
      CallKeepsCap(AfterCalls(calls[..|calls| - 1]), calls[|calls| - 1], user);
    }
  }

  ghost predicate StrictlyLatest(r: Registry, session: string) {
    session in r && forall s :: s in r && s != session ==> LastSeen(r[s]) < LastSeen(r[session])
  }

  /** The new session stays, only the oldest go, and at most eight remain if the new time is strictly the latest. */
  ghost predicate RecentKept(before: Registry, after: Registry, session: string) {
    && session in after && CapHolds(before, after, session)
    && (StrictlyLatest(before, session) ==> |after| <= MAX_DEVICES)
  }

  lemma CapKeepsRecent(before: Registry, after: Registry, session: string)
    requires session in before && CapHolds(before, after, session)
    ensures RecentKept(before, after, session)
  {
    if StrictlyLatest(before, session) {
      LatestLeavesCap(before, after, session);
    }
  }

  /** So it is at every registration of a run. */
  lemma EveryRegistrationKeepsTheRecent(calls: seq<Call>, k: nat)
    requires AllProper(calls) && k < |calls| && calls[k].Enroll?
    ensures RecentKept(Entered(AfterCalls(calls[..k]), calls[k]),
                       RegistryOf(AfterCalls(calls[..k + 1]), calls[k].user), calls[k].session)
  {
    ProperPrefix(calls, k + 1);
    assert calls[..k + 1][..k] == calls[..k];
    var st, call := AfterCalls(calls[..k]), calls[k];
    assert AfterCalls(calls[..k + 1]) == AfterCall(st, call);
    EnrollMeetsCap(st, call);
    CapKeepsRecent(Entered(st, call), RegistryOf(AfterCall(st, call), call.user), call.session);
  }

  lemma {:induction false} ProperPrefix(calls: seq<Call>, n: nat)
    requires AllProper(calls) && n <= |calls|
    ensures AllProper(calls[..n])
    decreases |calls|
  {
    if n == |calls| {
      assert calls[..n] == calls;
    } else {
      ProperPrefix(calls[..|calls| - 1], n);
      assert calls[..|calls| - 1][..n] == calls[..n];
    }
  }

  // ----- Nine devices -----

  ghost function Names(n: nat): set<string> {
    if n == 0 then {} else Names(n - 1) + {Name(n - 1)}
  }

  lemma {:induction false} NamesMember(n: nat, i: nat)
    ensures Name(i) in Names(n) <==> i < n
    decreases n
  {
    if n > 0 {
      NamesMember(n - 1, i);
      assert |Name(i)| == |Name(n - 1)| ==> i == n - 1;
    }
  }

  lemma {:induction false} NamesSize(n: nat)
    ensures |Names(n)| == n
  {
    if n > 0 {
      NamesSize(n - 1);
      NamesMember(n - 1, n - 1);
    }
  }

  /** The first `n` numbered sessions are registered, all seen at the same time. */
  ghost predicate SeenTogether(r: Registry, n: nat, now: int) {
    r.Keys == Names(n) && forall s :: s in r ==> r[s] == Parsed("n", now)
  }

  /** Of up to nine sessions seen at the same time none need be evicted. */
  lemma NoneEvicted(before: Registry, n: nat, now: int, session: string)
    requires SeenTogether(before, n, now) && n <= MAX_DEVICES + 1 && session in before
    ensures EvictsOldest(before, [], session)
  {
    NamesSize(n);
    var late := NotBefore(before, LastSeen(before[session]));
    assert late == before.Keys;
    var order, k := OrderWithFirst(before, session);
    LeadingSize(order, |order|);
    FirstSparesAll(order, session);
    assert OldestFirst(order, before.Keys, before) && Lists([], Evicted(order, session));
  }

  lemma FirstSparesAll(order: seq<string>, session: string)
    requires 0 < |order| <= MAX_DEVICES + 1 && order[0] == session
    ensures Evicted(order, session) == {} && Lists([], Evicted(order, session))
  {
    assert Leading(order, 1) == Leading(order, 0) + {order[0]} == {session};
  }

  lemma EnrollTogether(st: Store, user: string, n: nat, now: int)
    requires SeenTogether(RegistryOf(st, user), n, now) && n < MAX_DEVICES + 1
    ensures var call := Enroll(user, Name(n), "n", now, []);
      Proper(st, call) && SeenTogether(RegistryOf(AfterCall(st, call), user), n + 1, now)
  {
    var call := Enroll(user, Name(n), "n", now, []);
    assert SeenTogether(Entered(st, call), n + 1, now);
    NoneEvicted(Entered(st, call), n + 1, now, Name(n));
    assert AfterCall(st, call) == Apply(st, Register(user, Name(n), "n", now));
  }

  /** Nine are reached: by nine registrations at one time. */
  lemma NineDevicesReached(user: string, now: int) returns (calls: seq<Call>)
    ensures AllProper(calls) && |RegistryOf(AfterCalls(calls), user)| == 9
  {
    calls := [];
    for n := 0 to MAX_DEVICES + 1
      invariant AllProper(calls) && SeenTogether(RegistryOf(AfterCalls(calls), user), n, now)
    {
      EnrollTogether(AfterCalls(calls), user, n, now);
      var more := calls + [Enroll(user, Name(n), "n", now, [])];
      assert more[..|calls|] == calls;
      calls := more;
    }
    NamesSize(MAX_DEVICES + 1);
  }
}
