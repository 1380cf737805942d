/**
 When a session counts as online: by the time it was last heard of, through whatever other operations. Times are in
 seconds.
 */
module Heartbeats {
  import opened BrokerModel
  import opened Broker

  /** The operation registers the session or is a heartbeat of a readable entry. */
  ghost predicate Heard(st: Store, op: Op, user: string, session: string, t: int) {
    || (op.Register? && op.user == user && op.session == session && op.now == t)
    || (&& op.Refresh? && op.user == user && op.session == session && op.now == t
        && session in RegistryOf(st, user) && RegistryOf(st, user)[session].Parsed?)
  }

  predicate Touches(op: Op, user: string, session: string) {
    || ((op.Register? || op.Refresh?) && op.user == user && op.session == session)
    || (op.Remove? && op.device == Device(user, session))
  }

  /** None of the operations is about the session, and the user's registry does not expire meanwhile. */
  ghost predicate LeaveAlone(st: Store, ops: seq<Op>, user: string, session: string)
    decreases |ops|
  {
    ops == [] ||
    var init, op := ops[..|ops| - 1], ops[|ops| - 1];
    && LeaveAlone(st, init, user, session) && !Touches(op, user, session)
    && !(op.Tick? && Lapses(ApplyAll(st, init), user, op.now))
  }

  /** The registry has the session, last seen at `t`. */
  predicate SeenAt(st: Store, user: string, session: string, t: int) {
    && session in RegistryOf(st, user)
    && RegistryOf(st, user)[session].Parsed? && RegistryOf(st, user)[session].lastSeen == t
  }

  lemma HeardIsSeen(st: Store, op: Op, user: string, session: string, t: int)
    requires Heard(st, op, user, session, t)
    ensures SeenAt(Apply(st, op), user, session, t)
  {
  }

  /** Any other operation leaves the session's entry as it is. */
  lemma OtherStep(st: Store, op: Op, user: string, session: string, t: int)
    requires !Touches(op, user, session) && !(op.Tick? && Lapses(st, user, op.now))
    ensures SeenAt(Apply(st, op), user, session, t) <==> SeenAt(st, user, session, t)
  {
    if op.Send? {
      SendEffect(st, op.sender, op.device, op.m, op.now, op.device);
    }
  }

  lemma {:induction false} StaysSeen(st: Store, ops: seq<Op>, user: string, session: string, t: int)
    requires LeaveAlone(st, ops, user, session) && SeenAt(st, user, session, t)
    ensures SeenAt(ApplyAll(st, ops), user, session, t)
    decreases |ops|
  {
    if ops != [] {
      StaysSeen(st, ops[..|ops| - 1], user, session, t);
      OtherStep(ApplyAll(st, ops[..|ops| - 1]), ops[|ops| - 1], user, session, t);
    }
  }

  /** How a listing at `now` files a session last seen at `t`. */
  ghost predicate FiledBy(r: Registry, session: string, t: int, now: int) {
    && (session in OnlineSessions(r, now) <==> now - t <= 300)
    && (session in WaitingSessions(r, now) <==> 300 < now - t <= 604800)
    && (session in StaleSessions(r, now) <==> 604800 < now - t)
  }

  /**
   A session heard of at `t`, by its registration or a heartbeat, is listed as online for five minutes, then as
   waiting until a week is over, and then pruned, whatever other operations come in between.
   */
  lemma ListedByLastHeard(st: Store, op: Op, ops: seq<Op>, user: string, session: string, t: int, now: int)
    requires Heard(st, op, user, session, t) && LeaveAlone(Apply(st, op), ops, user, session)
    ensures FiledBy(RegistryOf(ApplyAll(Apply(st, op), ops), user), session, t, now)
  {
    HeardIsSeen(st, op, user, session, t);
    StaysSeen(Apply(st, op), ops, user, session, t);
  }

  /** An entry that does not parse is pruned at any time, and heartbeats do not mend it. */
  lemma CorruptIsPruned(st: Store, user: string, session: string, beat: int, now: int)
    requires session in RegistryOf(st, user) && RegistryOf(st, user)[session].Corrupt?
    ensures var r := RegistryOf(Apply(st, Refresh(user, session, beat)), user);
      session in StaleSessions(r, now) && session !in OnlineSessions(r, now) && session !in WaitingSessions(r, now)
  {
  }

  /** Every session is in exactly one of the three lists. */
  lemma ListedOnce(r: Registry, now: int)
    ensures OnlineSessions(r, now) + WaitingSessions(r, now) + StaleSessions(r, now) == r.Keys
    ensures OnlineSessions(r, now) !! WaitingSessions(r, now) !! StaleSessions(r, now)
  {
  }

  // ----- Over whole runs -----

  /** Step `k` heard of the session at `t` and nothing after it was about the session. */
  ghost predicate LastHeard(ops: seq<Op>, k: nat, user: string, session: string, t: int) {
    && k < |ops| && Heard(ApplyAll(EMPTY.store, ops[..k]), ops[k], user, session, t)
    && LeaveAlone(ApplyAll(EMPTY.store, ops[..k + 1]), ops[k + 1..], user, session)
  }

  lemma LastHeardIsSeen(ops: seq<Op>, k: nat, user: string, session: string, t: int)
    requires LastHeard(ops, k, user, session, t)
    ensures SeenAt(ApplyAll(EMPTY.store, ops), user, session, t)
  {
    var upTo := ops[..k + 1];
    assert upTo[..k] == ops[..k];
    HeardIsSeen(ApplyAll(EMPTY.store, ops[..k]), ops[k], user, session, t);
    StaysSeen(ApplyAll(EMPTY.store, upTo), ops[k + 1..], user, session, t);
    ApplyAllConcat(EMPTY.store, upTo, ops[k + 1..]);
    assert upTo + ops[k + 1..] == ops;
  }

  lemma LeaveAloneOneMore(st: Store, ops: seq<Op>, op: Op, user: string, session: string)
    requires LeaveAlone(st, ops, user, session) && !Touches(op, user, session)
    requires !(op.Tick? && Lapses(ApplyAll(st, ops), user, op.now))
    ensures LeaveAlone(st, ops + [op], user, session)
  {
    assert (ops + [op])[..|ops|] == ops;
  }

  lemma CutBeforeLast(ops: seq<Op>, k: nat)
    requires k + 1 < |ops|
    ensures var init := ops[..|ops| - 1];
      && init[..k] == ops[..k] && init[k] == ops[k] && init[..k + 1] == ops[..k + 1]
      && init[..k + 1] + init[k + 1..] == init && ops[k + 1..] == init[k + 1..] + [ops[|ops| - 1]]
  {
  }

  lemma LaterStepLeavesAlone(ops: seq<Op>, k: nat, user: string, session: string, t: int)
    requires ops != [] && LastHeard(ops[..|ops| - 1], k, user, session, t)
    requires var op := ops[|ops| - 1];
      && !Touches(op, user, session)
      && !(op.Tick? && Lapses(ApplyAll(EMPTY.store, ops[..|ops| - 1]), user, op.now))
    ensures LastHeard(ops, k, user, session, t)
  {
    var init, op := ops[..|ops| - 1], ops[|ops| - 1];
    var upTo, rest := init[..k + 1], init[k + 1..];
    CutBeforeLast(ops, k);
    ApplyAllConcat(EMPTY.store, upTo, rest);
    LeaveAloneOneMore(ApplyAll(EMPTY.store, upTo), rest, op, user, session);
  }

  lemma {:induction false} SeenWasHeard(ops: seq<Op>, user: string, session: string, t: int) returns (k: nat)
    requires SeenAt(ApplyAll(EMPTY.store, ops), user, session, t)
    ensures LastHeard(ops, k, user, session, t)
    decreases |ops|
  {
    var init, op := ops[..|ops| - 1], ops[|ops| - 1];
    var st := ApplyAll(EMPTY.store, init);
    if Heard(st, op, user, session, t) {
      k := |init|;
      assert ops[..k + 1] == ops && ops[k + 1..] == [];
    } else {
      OtherStep(st, op, user, session, t);
      k := SeenWasHeard(init, user, session, t);
      LaterStepLeavesAlone(ops, k, user, session, t);
    }
  }

  /** In every run the registry has a session as last seen at `t` if and only if it was last heard of at `t`. */
  lemma SeenIffHeard(ops: seq<Op>, user: string, session: string, t: int)
    ensures SeenAt(ApplyAll(EMPTY.store, ops), user, session, t) <==>
      exists k :: LastHeard(ops, k, user, session, t)
  {
    if SeenAt(ApplyAll(EMPTY.store, ops), user, session, t) {
      var k := SeenWasHeard(ops, user, session, t);
    }
    if k :| LastHeard(ops, k, user, session, t) {
      LastHeardIsSeen(ops, k, user, session, t);
    }
  }

  // ----- Who is evicted -----

  /** An unreadable entry goes before any readable one, and of two readable ones the one heard of earlier. */
  ghost predicate GoesBefore(gone: Entry, kept: Entry) {
    gone.Corrupt? || (kept.Parsed? && gone.lastSeen <= kept.lastSeen)
  }

  /** Times are 64-bit numbers. */
  ghost predicate Representable(r: Registry) {
    forall s :: s in r && r[s].Parsed? ==> -0x8000_0000_0000_0000 < r[s].lastSeen
  }

  /** A registration evicts no session that was heard of later than another one that stays, besides the new one. */
  lemma EvictedWereHeardOfEarlier(calls: seq<Call>, k: nat, gone: string, kept: string)
    requires AllProper(calls) && k < |calls| && calls[k].Enroll?
    requires Representable(Entered(AfterCalls(calls[..k]), calls[k]))
    requires var before := Entered(AfterCalls(calls[..k]), calls[k]);
      var after := RegistryOf(AfterCalls(calls[..k + 1]), calls[k].user);
      gone in before && gone !in after && kept in after && kept != calls[k].session
    ensures var before := Entered(AfterCalls(calls[..k]), calls[k]);
      kept in before && GoesBefore(before[gone], before[kept])
  {
    EveryRegistrationKeepsTheRecent(calls, k);
  }
}
