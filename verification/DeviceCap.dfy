/**
 The cap on a user's registered devices: which sessions an over-full registry
 evicts, given only that they are sorted by when they were last seen.
 */
module DeviceCap {
  import opened Collections
  import opened BrokerModel

  const OLDEST: int := -0x8000_0000_0000_0000

  /** Entries that do not parse count as seen at the earliest possible time. */
  function LastSeen(e: Entry): int {
    if e.Parsed? then e.lastSeen else OLDEST
  }

  /** `order` lists the sessions in `keys`, once each, oldest first; ties in any order. */
  ghost predicate OldestFirst(order: seq<string>, keys: set<string>, r: Registry) {
    && Distinct(order)
    && Leading(order, |order|) == keys
    && keys <= r.Keys
    && forall i, j :: 0 <= i < j < |order| ==>
         order[i] in r && order[j] in r && LastSeen(r[order[i]]) <= LastSeen(r[order[j]])
  }

  lemma {:induction false} SomeOldest(keys: set<string>, r: Registry) returns (s: string)
    requires keys != {} && keys <= r.Keys
    ensures s in keys && forall t :: t in keys ==> LastSeen(r[s]) <= LastSeen(r[t])
    decreases keys
  {
    s :| s in keys;
    if keys != {s} {
      var t := SomeOldest(keys - {s}, r);
      if LastSeen(r[t]) < LastSeen(r[s]) {
        s := t;
      }
    }
  }

  /** Appending a session no older than the listed ones. */
  lemma AppendOldest(order: seq<string>, keys: set<string>, r: Registry, s: string)
    requires OldestFirst(order, keys, r) && s in r && s !in keys
    requires forall t :: t in keys ==> LastSeen(r[t]) <= LastSeen(r[s])
    ensures OldestFirst(order + [s], keys + {s}, r)
  {
    LeadingOfAppend(order, s, |order|);
    forall i | 0 <= i < |order| ensures order[i] in keys {
      LeadingMembers(order, |order|, order[i]);
    }
  }

  lemma {:induction false} LeadingOfAppend(order: seq<string>, s: string, k: nat)
    requires k <= |order|
    ensures Leading(order + [s], k) == Leading(order, k)
    decreases k
  {
    if k > 0 {
      LeadingOfAppend(order, s, k - 1);
    }
  }

  /** The sort: any result that is ordered by last-seen time. */
  method SortByLastSeen(r: Registry) returns (order: seq<string>)
    ensures OldestFirst(order, r.Keys, r)
  {
    order := [];
    var rest := r.Keys;
    while rest != {}
      invariant rest <= r.Keys
      invariant OldestFirst(order, r.Keys - rest, r)
      invariant forall s, t :: s in r.Keys - rest && t in rest ==> LastSeen(r[s]) <= LastSeen(r[t])
      decreases rest
    {
      ghost var first := SomeOldest(rest, r);
      assert first in rest;
      var s :| s in rest && forall t :: t in rest ==> LastSeen(r[s]) <= LastSeen(r[t]);
      AppendOldest(order, r.Keys - rest, r, s);
      assert r.Keys - rest + {s} == r.Keys - (rest - {s});
      order, rest := order + [s], rest - {s};
    }
    assert r.Keys - rest == r.Keys;
  }

  /** The sessions to evict: the oldest ones beyond the cap, except the one just registered. */
  ghost function Evicted(order: seq<string>, session: string): set<string> {
    if |order| <= MAX_DEVICES then {} else Leading(order, |order| - MAX_DEVICES) - {session}
  }

  /** The sessions seen no earlier than `time`. */
  ghost function NotBefore(r: Registry, time: int): set<string> {
    set s | s in r && LastSeen(r[s]) >= time
  }

  /** What remains after an eviction. */
  ghost predicate CapHolds(before: Registry, after: Registry, session: string) {
    && after.Keys <= before.Keys && (forall s :: s in after ==> after[s] == before[s])
    && session in after
    && (|before| <= MAX_DEVICES ==> after == before)
    && (forall gone, kept :: gone in before && gone !in after && kept in after && kept != session ==>
          LastSeen(before[gone]) <= LastSeen(before[kept]))
    && |after| <= MAX_DEVICES + 1
    && (|before| > MAX_DEVICES ==> |after| >= MAX_DEVICES)
    && (|after| > MAX_DEVICES ==> |NotBefore(before, LastSeen(before[session]))| > MAX_DEVICES)
  }

  lemma {:induction false} LeadingWithin(order: seq<string>, a: nat, b: nat)
    requires a <= b <= |order|
    ensures Leading(order, a) <= Leading(order, b)
    decreases b
  {
    if a < b {
      LeadingWithin(order, a, b - 1);
    }
  }

  lemma EvictedSize(before: Registry, order: seq<string>, session: string)
    requires OldestFirst(order, before.Keys, before) && |order| > MAX_DEVICES
    ensures var early := Leading(order, |order| - MAX_DEVICES);
      && Evicted(order, session) <= before.Keys
      && |Evicted(order, session)| == |order| - MAX_DEVICES - (if session in early then 1 else 0)
  {
    var k := |order| - MAX_DEVICES;
    var early := Leading(order, k);
    LeadingWithin(order, k, |order|);
    LeadingSize(order, k);
    if session in early {
      MinusSize(early, {session});
    } else {
      assert early - {session} == early;
    }
  }

  lemma EvictionSizes(before: Registry, order: seq<string>, session: string)
    requires OldestFirst(order, before.Keys, before) && session in before
    ensures |order| == |before|
    ensures var after := before - Evicted(order, session);
      && |after| <= MAX_DEVICES + 1
      && (|before| > MAX_DEVICES ==> |after| >= MAX_DEVICES)
      && (|after| > MAX_DEVICES ==> |order| > MAX_DEVICES && session in Leading(order, |order| - MAX_DEVICES))
  {
    LeadingSize(order, |order|);
    var after := before - Evicted(order, session);
    assert after.Keys == before.Keys - Evicted(order, session);
    if |order| > MAX_DEVICES {
      EvictedSize(before, order, session);
      MinusSize(before.Keys, Evicted(order, session));
    }
  }

  /** Nine can stay only if nine sessions, the new one among them, were seen no earlier than it. */
  lemma ManyAsRecent(before: Registry, order: seq<string>, session: string)
    requires OldestFirst(order, before.Keys, before) && |order| > MAX_DEVICES
    requires session in Leading(order, |order| - MAX_DEVICES) && session in before
    ensures |NotBefore(before, LastSeen(before[session]))| > MAX_DEVICES
  {
    LeadingMembers(order, |order| - MAX_DEVICES, session);
    var i :| 0 <= i < |order| - MAX_DEVICES && order[i] == session;
    LeadingSize(order, |order|);
    LeadingSize(order, i);
    LeadingWithin(order, i, |order|);
    MinusSize(before.Keys, Leading(order, i));
    var late := before.Keys - Leading(order, i);
    forall s | s in late ensures s in NotBefore(before, LastSeen(before[session])) {
      LeadingMembers(order, |order|, s);
      LeadingMembers(order, i, s);
      var j :| 0 <= j < |order| && order[j] == s;
      assert i <= j;
    }
    SubsetSize(late, NotBefore(before, LastSeen(before[session])));
  }

  lemma EvictionSparesTheRecent(before: Registry, order: seq<string>, session: string, gone: string, kept: string)
    requires OldestFirst(order, before.Keys, before)
    requires gone in Evicted(order, session) && gone in before
    requires kept in before && kept !in Evicted(order, session) && kept != session
    ensures LastSeen(before[gone]) <= LastSeen(before[kept])
  {
    var k := |order| - MAX_DEVICES;
    LeadingMembers(order, k, gone);
    LeadingMembers(order, k, kept);
    LeadingMembers(order, |order|, kept);
    var i :| 0 <= i < k && order[i] == gone;
    var j :| 0 <= j < |order| && order[j] == kept;
    assert k <= j;
  }

  lemma EvictionMeetsCap(before: Registry, order: seq<string>, session: string)
    requires OldestFirst(order, before.Keys, before) && session in before
    ensures CapHolds(before, before - Evicted(order, session), session)
  {
    var after := before - Evicted(order, session);
    EvictionSizes(before, order, session);
    if |after| > MAX_DEVICES {
      ManyAsRecent(before, order, session);
    }
    forall gone, kept | gone in before && gone !in after && kept in after && kept != session
      ensures LastSeen(before[gone]) <= LastSeen(before[kept])
    {
      EvictionSparesTheRecent(before, order, session, gone, kept);
    }
  }

  /** So a session registered with the strictly latest time leaves at most the cap. */
  lemma LatestLeavesCap(before: Registry, after: Registry, session: string)
    requires session in before && CapHolds(before, after, session)
    requires forall s :: s in before && s != session ==> LastSeen(before[s]) < LastSeen(before[session])
    ensures |after| <= MAX_DEVICES
  {
    assert NotBefore(before, LastSeen(before[session])) == {session};
  }

  // ----- When nine remain -----

  /** Continue a listing with sessions none of which is older. */
  lemma {:induction false} ContinueOrder(order: seq<string>, keys: set<string>, rest: set<string>, r: Registry)
    returns (full: seq<string>)
    requires OldestFirst(order, keys, r) && keys !! rest && rest <= r.Keys
    requires forall s, t :: s in keys && t in rest ==> LastSeen(r[s]) <= LastSeen(r[t])
    ensures OldestFirst(full, keys + rest, r) && order <= full
    decreases rest
  {
    if rest == {} {
      full := order;
      assert keys + rest == keys;
    } else {
      var s := SomeOldest(rest, r);
      AppendOldest(order, keys, r, s);
      full := ContinueOrder(order + [s], keys + {s}, rest - {s}, r);
      assert keys + {s} + (rest - {s}) == keys + rest;
    }
  }

  /** The sessions seen strictly earlier, then the session itself. */
  lemma OrderUpTo(before: Registry, session: string, early: set<string>) returns (first: seq<string>)
    requires session in before && session !in early && early <= before.Keys
    requires forall s :: s in early ==> LastSeen(before[s]) <= LastSeen(before[session])
    ensures OldestFirst(first + [session], early + {session}, before) && |first| == |early|
  {
    first := ContinueOrder([], {}, early, before);
    assert {} + early == early;
    LeadingSize(first, |first|);
    AppendOldest(first, early, before, session);
  }

  /** Some sort puts the session right behind those seen strictly earlier. */
  lemma OrderWithFirst(before: Registry, session: string) returns (order: seq<string>, k: nat)
    requires session in before
    ensures OldestFirst(order, before.Keys, before)
    ensures k < |order| && order[k] == session && k == |before| - |NotBefore(before, LastSeen(before[session]))|
  {
    var late := NotBefore(before, LastSeen(before[session]));
    var early := before.Keys - late;
    MinusSize(before.Keys, late);
    var first := OrderUpTo(before, session, early);
    order := ContinueOrder(first + [session], early + {session}, late - {session}, before);
    assert early + {session} + (late - {session}) == before.Keys;
    k := |first|;
    assert order[k] == (first + [session])[k];
  }

  ghost predicate NineMayRemain(before: Registry, session: string) {
    exists order :: OldestFirst(order, before.Keys, before) && |before - Evicted(order, session)| > MAX_DEVICES
  }

  lemma EarlySessionLeavesNine(before: Registry, order: seq<string>, session: string, k: nat)
    requires OldestFirst(order, before.Keys, before) && k + MAX_DEVICES < |order| && order[k] == session
    ensures |before - Evicted(order, session)| == MAX_DEVICES + 1
  {
    LeadingSize(order, |order|);
    LeadingMembers(order, |order| - MAX_DEVICES, session);
    EvictedSize(before, order, session);
    MinusSize(before.Keys, Evicted(order, session));
    assert (before - Evicted(order, session)).Keys == before.Keys - Evicted(order, session);
  }

  /**
   Nine sessions may remain if and only if more than eight, the new one among them, were seen no
   earlier than it; which of several sessions seen at the same time go is up to the sort.
   */
  lemma NineMayRemainIff(before: Registry, session: string)
    requires session in before
    ensures NineMayRemain(before, session) <==> |NotBefore(before, LastSeen(before[session]))| > MAX_DEVICES
  {
    if |NotBefore(before, LastSeen(before[session]))| > MAX_DEVICES {
      var order, k := OrderWithFirst(before, session);
      LeadingSize(order, |order|);
      EarlySessionLeavesNine(before, order, session, k);
    }
    if NineMayRemain(before, session) {
      var order :| OldestFirst(order, before.Keys, before) && |before - Evicted(order, session)| > MAX_DEVICES;
      EvictionSizes(before, order, session);
      ManyAsRecent(before, order, session);
    }
  }
}
