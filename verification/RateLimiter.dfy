/** The fixed-window rate limiter, with every clock reading of a request kept apart. */
module RateLimiter {
  import opened Models

  const WINDOW := 10000

  /** A bucket; `reset` is in milliseconds. */
  datatype Entry = Entry(used: nat, reset: int)

  /** The readings of one request, in the order they are taken. */
  datatype Clock = Clock(found: int, remaining: int, left: int, deduct: int, renew: int, after: int)

  datatype Ratelimiter = Ratelimiter(key: nat, limit: nat, remaining: nat, reset: nat)

  datatype Answer = Ok(limiter: Ratelimiter) | Err(limiter: Ratelimiter)

  ghost predicate Forward(c: Clock, since: int) {
    since <= c.found <= c.remaining <= c.left <= c.deduct <= c.renew <= c.after
  }

  /** A key without an entry gets a fresh window. */
  function EntryAt(entry: Option<Entry>, c: Clock): Entry {
    if entry.Some? then entry.value else Entry(0, c.found + WINDOW)
  }

  function Lookup(entries: map<nat, Entry>, key: nat): Option<Entry> {
    if key in entries then Some(entries[key]) else None
  }

  /** What the code subtracts from; negative is an underflow. */
  function Remaining(e: Entry, limit: nat, now: int): int {
    if now > e.reset then limit else limit - e.used
  }

  function Deducted(e: Entry, c: Clock): Entry {
    if c.deduct > e.reset then Entry(1, c.renew + WINDOW) else Entry(e.used + 1, e.reset)
  }

  function UntilReset(e: Entry, now: int): nat {
    if e.reset <= now then 0 else e.reset - now
  }

  class RatelimitStorage {
    var entries: map<nat, Entry>

    constructor ()
      ensures entries == map[]
    {
      entries := map[];
    }

    /** Take one unit if there is one; the entry within its limit is all it asks. */
    method From(key: nat, limit: nat, c: Clock) returns (answer: Answer)
      requires key in entries ==> entries[key].used <= limit
      requires c.remaining <= c.deduct
      modifies this
      ensures var e := EntryAt(Lookup(old(entries), key), c);
        && (answer.Ok? <==> Remaining(e, limit, c.remaining) != 0)
        && entries == if answer.Ok? then old(entries)[key := Deducted(e, c)] else old(entries)
      ensures entries == Served(old(entries), _ => limit, Request(key, c))
      ensures answer.limiter.key == key && answer.limiter.limit == limit
      ensures answer.Err? ==>
        && answer.limiter.remaining == 0
        && answer.limiter.reset == UntilReset(EntryAt(Lookup(old(entries), key), c), c.left)
      ensures answer.Ok? ==>
        && entries[key].used <= limit
        && answer.limiter.remaining == Remaining(EntryAt(Lookup(old(entries), key), c), limit, c.remaining) - 1
        && answer.limiter.reset == UntilReset(entries[key], c.after)
    {
      var entry := if key in entries then entries[key] else Entry(0, c.found + WINDOW);
      var remaining: nat := if c.remaining > entry.reset then limit else limit - entry.used;
      var reset: nat := if entry.reset <= c.left then 0 else entry.reset - c.left;
      if remaining == 0 {
        return Err(Ratelimiter(key, limit, remaining, reset));
      }
      if c.deduct > entry.reset {
        entry := Entry(1, c.renew + WINDOW);
      } else {
        entry := entry.(used := entry.used + 1);
      }
      entries := entries[key := entry];
      reset := if entry.reset <= c.after then 0 else entry.reset - c.after;
      answer := Ok(Ratelimiter(key, limit, remaining - 1, reset));
    }
  }

  // ----- Runs -----

  /** An accepted request: when it was deducted, and in which of its key's windows. */
  datatype Grant = Grant(at: int, window: nat)

  /** A key's grants, and the times at which its windows after the first were opened. */
  datatype Log = Log(grants: seq<Grant>, openings: seq<int>)

  /** One key's bucket; requests for other keys do not touch it. */
  datatype World = World(entry: Option<Entry>, log: Log, now: int)

  const FRESH := World(None, Log([], []), 0)

  function Granted(log: Log, e: Entry, c: Clock): Log {
    var openings := if c.deduct > e.reset then log.openings + [c.deduct] else log.openings;
    Log(log.grants + [Grant(c.deduct, |openings|)], openings)
  }

  function Next(w: World, c: Clock, limit: nat): World {
    var e := EntryAt(w.entry, c);
    if Remaining(e, limit, c.remaining) == 0 then w.(now := c.after)
    else World(Some(Deducted(e, c)), Granted(w.log, e, c), c.after)
  }

  function Run(requests: seq<Clock>, limit: nat): World
    decreases |requests|
  {
    if requests == [] then FRESH else Next(Run(requests[..|requests| - 1], limit), requests[|requests| - 1], limit)
  }

  /** The clock does not go backwards, and one request ends before the next begins. */
  ghost predicate IsRun(requests: seq<Clock>, limit: nat)
    decreases |requests|
  {
    requests == [] ||
    (&& IsRun(requests[..|requests| - 1], limit)
     && Forward(requests[|requests| - 1], Run(requests[..|requests| - 1], limit).now))
  }

  /** How many of the grants are in window `k`. */
  ghost function InWindow(grants: seq<Grant>, k: nat): nat
    decreases |grants|
  {
    if grants == [] then 0
    else InWindow(grants[..|grants| - 1], k) + if grants[|grants| - 1].window == k then 1 else 0
  }

  ghost predicate Ordered(grants: seq<Grant>) {
    forall i, j :: 0 <= i < j < |grants| ==> grants[i].at <= grants[j].at && grants[i].window <= grants[j].window
  }

  /** Openings are more than ten seconds apart. */
  ghost predicate Apart(openings: seq<int>) {
    forall a, b :: 0 <= a < b < |openings| ==> openings[a] + WINDOW < openings[b]
  }

  /** A grant lies between the opening of its window and the next. */
  ghost predicate Inside(g: Grant, openings: seq<int>) {
    && g.window <= |openings|
    && (g.window >= 1 ==> openings[g.window - 1] <= g.at)
    && (g.window < |openings| ==> g.at <= openings[g.window])
  }

  ghost predicate Shape(log: Log, now: int) {
    && Ordered(log.grants) && Apart(log.openings)
    && (forall i :: 0 <= i < |log.grants| ==> Inside(log.grants[i], log.openings) && log.grants[i].at <= now)
    && (forall a :: 0 <= a < |log.openings| ==> log.openings[a] <= now)
  }

  ghost predicate Counted(grants: seq<Grant>, limit: nat) {
    forall k :: InWindow(grants, k) <= limit
  }

  /** The entry counts the current window, which was opened at least ten seconds before it resets. */
  ghost predicate EntryOk(log: Log, e: Entry, limit: nat) {
    e.used == InWindow(log.grants, |log.openings|) <= limit && ResetsLate(log.openings, e.reset)
  }

  ghost predicate ResetsLate(openings: seq<int>, reset: int) {
    openings != [] ==> openings[|openings| - 1] + WINDOW <= reset
  }

  ghost predicate BucketOk(w: World, limit: nat) {
    && Shape(w.log, w.now) && Counted(w.log.grants, limit)
    && (w.entry.Some? ==> EntryOk(w.log, w.entry.value, limit))
    && (w.entry.None? ==> w.log == Log([], []))
  }

  lemma {:induction false} NoneBeyond(grants: seq<Grant>, k: nat)
    requires forall i :: 0 <= i < |grants| ==> grants[i].window < k
    ensures InWindow(grants, k) == 0
    decreases |grants|
  {
    if |grants| > 0 {
      NoneBeyond(grants[..|grants| - 1], k);
    }
  }

  lemma Appended(grants: seq<Grant>, g: Grant, k: nat)
    ensures InWindow(grants + [g], k) == InWindow(grants, k) + if g.window == k then 1 else 0
  {
    assert (grants + [g])[..|grants|] == grants;
  }

  /** A window is opened only once the entry has lapsed, and so long enough after the one before. */
  lemma OpeningsStayApart(openings: seq<int>, reset: int, at: int)
    requires Apart(openings) && ResetsLate(openings, reset) && at > reset
    ensures Apart(openings + [at])
  {
    var more := openings + [at];
    forall a, b | 0 <= a < b < |more| ensures more[a] + WINDOW < more[b] {
      if b == |openings| && a < b - 1 {
        assert openings[a] + WINDOW < openings[b - 1];
      }
    }
  }

  lemma StillInside(g: Grant, openings: seq<int>, at: int)
    requires Inside(g, openings) && g.at <= at
    ensures Inside(g, openings + [at])
  {
  }

  lemma NewestInside(openings: seq<int>, at: int)
    requires forall a :: 0 <= a < |openings| ==> openings[a] <= at
    ensures Inside(Grant(at, |openings|), openings)
  {
  }

  lemma AllStillInside(log: Log, e: Entry, c: Clock, now: int, i: nat)
    requires Shape(log, now) && now <= c.deduct && i < |Granted(log, e, c).grants|
    ensures Inside(Granted(log, e, c).grants[i], Granted(log, e, c).openings)
    ensures Granted(log, e, c).grants[i].at <= c.deduct
  {
    var after := Granted(log, e, c);
    if i < |log.grants| {
      assert Inside(log.grants[i], log.openings);
      StillInside(log.grants[i], log.openings, c.deduct);
    } else {
      NewestInside(after.openings, c.deduct);
    }
  }

  /** A grant made after all the others stays inside its window. */
  lemma GrantInside(log: Log, e: Entry, c: Clock, now: int)
    requires Shape(log, now) && ResetsLate(log.openings, e.reset) && now <= c.deduct <= c.renew <= c.after
    ensures Shape(Granted(log, e, c), c.after)
    ensures ResetsLate(Granted(log, e, c).openings, Deducted(e, c).reset)
  {
    if c.deduct > e.reset {
      OpeningsStayApart(log.openings, e.reset, c.deduct);
    }
    forall i | 0 <= i < |Granted(log, e, c).grants|
      ensures Inside(Granted(log, e, c).grants[i], Granted(log, e, c).openings)
      ensures Granted(log, e, c).grants[i].at <= c.after
    {
      AllStillInside(log, e, c, now, i);
    }
    GrantOrdered(log, e, c, now);
  }

  lemma GrantOrdered(log: Log, e: Entry, c: Clock, now: int)
    requires Shape(log, now) && now <= c.deduct
    ensures Ordered(Granted(log, e, c).grants)
  {
    var after := Granted(log, e, c);
    forall i, j | 0 <= i < j < |after.grants|
      ensures after.grants[i].at <= after.grants[j].at && after.grants[i].window <= after.grants[j].window
    {
      assert Inside(log.grants[i], log.openings);
    }
  }

  lemma ContinuedCount(grants: seq<Grant>, g: Grant, limit: nat, k: nat)
    requires Counted(grants, limit) && InWindow(grants, g.window) < limit
    ensures InWindow(grants + [g], k) <= limit
    ensures InWindow(grants + [g], g.window) == InWindow(grants, g.window) + 1
  {
    Appended(grants, g, k);
    Appended(grants, g, g.window);
    assert InWindow(grants, k) <= limit;
  }

  lemma OneMoreCounted(grants: seq<Grant>, g: Grant, limit: nat)
    requires Counted(grants, limit) && InWindow(grants, g.window) < limit
    ensures Counted(grants + [g], limit) && InWindow(grants + [g], g.window) == InWindow(grants, g.window) + 1
  {
    forall k ensures InWindow(grants + [g], k) <= limit {
      ContinuedCount(grants, g, limit, k);
    }
    ContinuedCount(grants, g, limit, g.window);
  }

  lemma GrantCounted(log: Log, e: Entry, c: Clock, limit: nat)
    requires forall i :: 0 <= i < |log.grants| ==> log.grants[i].window <= |log.openings|
    requires Counted(log.grants, limit) && e.used == InWindow(log.grants, |log.openings|)
    requires if c.deduct > e.reset then 1 <= limit else e.used < limit
    ensures var after := Granted(log, e, c);
      && Counted(after.grants, limit)
      && Deducted(e, c).used == InWindow(after.grants, |after.openings|) <= limit
  {
    if c.deduct > e.reset {
      NoneBeyond(log.grants, |log.openings| + 1);
      OneMoreCounted(log.grants, Grant(c.deduct, |log.openings| + 1), limit);
    } else {
      OneMoreCounted(log.grants, Grant(c.deduct, |log.openings|), limit);
    }
  }

  lemma WindowsOpened(log: Log, now: int)
    requires Shape(log, now)
    ensures forall i :: 0 <= i < |log.grants| ==> log.grants[i].window <= |log.openings|
  {
    forall i | 0 <= i < |log.grants| ensures log.grants[i].window <= |log.openings| {
      assert Inside(log.grants[i], log.openings);
    }
  }

  lemma ShapeLater(log: Log, now: int, later: int)
    requires Shape(log, now) && now <= later
    ensures Shape(log, later)
  {
  }

  lemma EntryReady(w: World, c: Clock, limit: nat)
    requires BucketOk(w, limit)
    ensures EntryOk(w.log, EntryAt(w.entry, c), limit)
  {
  }

  lemma GrantKeeps(log: Log, e: Entry, c: Clock, limit: nat, now: int)
    requires Forward(c, now) && Shape(log, now) && Counted(log.grants, limit) && EntryOk(log, e, limit)
    requires Remaining(e, limit, c.remaining) != 0
    ensures BucketOk(World(Some(Deducted(e, c)), Granted(log, e, c), c.after), limit)
  {
    GrantInside(log, e, c, now);
    WindowsOpened(log, now);
    GrantCounted(log, e, c, limit);
  }

  lemma RequestKeeps(w: World, c: Clock, limit: nat)
    requires Forward(c, w.now) && BucketOk(w, limit)
    ensures BucketOk(Next(w, c, limit), limit)
  {
    EntryReady(w, c, limit);
    if Remaining(EntryAt(w.entry, c), limit, c.remaining) != 0 {
      GrantKeeps(w.log, EntryAt(w.entry, c), c, limit, w.now);
    } else {
      ShapeLater(w.log, w.now, c.after);
    }
  }

  /** In every run the stored entry stays within the limit, and so does every window. */
  lemma {:induction false} EveryRunWithinLimit(requests: seq<Clock>, limit: nat)
    requires IsRun(requests, limit)
    ensures BucketOk(Run(requests, limit), limit)
    decreases |requests|
  {
    if requests != [] {
      var init := requests[..|requests| - 1];
      EveryRunWithinLimit(init, limit);
      RequestKeeps(Run(init, limit), requests[|requests| - 1], limit);
    }
  }

  /** No request of a run subtracts more than there is. */
  lemma NoUnderflow(requests: seq<Clock>, limit: nat, c: Clock)
    requires IsRun(requests, limit)
    ensures Remaining(EntryAt(Run(requests, limit).entry, c), limit, c.remaining) >= 0
  {
    EveryRunWithinLimit(requests, limit);
  }

  // ----- Any ten seconds -----

  /** Grants `i` up to `j` that all lie in windows `k` and `k + 1` are counted there. */
  lemma {:induction false} SpanCounted(grants: seq<Grant>, i: nat, j: nat, k: nat)
    requires i <= j <= |grants|
    requires forall m :: i <= m < j ==> k <= grants[m].window <= k + 1
    ensures j - i <= InWindow(grants[..j], k) + InWindow(grants[..j], k + 1)
    decreases j
  {
    if i < j {
      SpanCounted(grants, i, j - 1, k);
      assert grants[..j][..j - 1] == grants[..j - 1];
    }
  }

  lemma {:induction false} PrefixCounts(grants: seq<Grant>, j: nat, k: nat)
    requires j <= |grants|
    ensures InWindow(grants[..j], k) <= InWindow(grants, k)
    decreases |grants| - j
  {
    if j == |grants| {
      assert grants[..j] == grants;
    } else {
      assert grants[..j + 1][..j] == grants[..j];
      PrefixCounts(grants, j + 1, k);
    }
  }

  /** Ten seconds touch at most two windows. */
  lemma TwoWindows(log: Log, now: int, i: nat, j: nat)
    requires Shape(log, now) && i <= j < |log.grants|
    ensures log.grants[j].window > log.grants[i].window + 1 ==> log.grants[j].at - log.grants[i].at > WINDOW
  {
    var k, l := log.grants[i].window, log.grants[j].window;
    assert Inside(log.grants[i], log.openings) && Inside(log.grants[j], log.openings);
    if l > k + 1 {
      assert log.openings[k] + WINDOW < log.openings[l - 1];
    }
  }

  lemma WindowsBetween(log: Log, now: int, i: nat, j: nat)
    requires Shape(log, now) && i <= j < |log.grants| && log.grants[j].at - log.grants[i].at <= WINDOW
    ensures var k := log.grants[i].window; forall m :: i <= m < j + 1 ==> k <= log.grants[m].window <= k + 1
  {
    TwoWindows(log, now, i, j);
  }

  lemma SpanBounded(grants: seq<Grant>, limit: nat, i: nat, j: nat, k: nat)
    requires Counted(grants, limit) && i <= j < |grants|
    requires forall m :: i <= m < j + 1 ==> k <= grants[m].window <= k + 1
    ensures j - i + 1 <= 2 * limit
  {
    SpanCounted(grants, i, j + 1, k);
    PrefixCounts(grants, j + 1, k);
    PrefixCounts(grants, j + 1, k + 1);
  }

  /** Any ten seconds hold at most twice the limit. */
  lemma TenSecondsBounded(requests: seq<Clock>, limit: nat, i: nat, j: nat)
    requires IsRun(requests, limit) && i <= j < |Run(requests, limit).log.grants|
    requires Run(requests, limit).log.grants[j].at - Run(requests, limit).log.grants[i].at <= WINDOW
    ensures j - i + 1 <= 2 * limit
  {
    EveryRunWithinLimit(requests, limit);
    var w := Run(requests, limit);
    WindowsBetween(w.log, w.now, i, j);
    SpanBounded(w.log.grants, limit, i, j, w.log.grants[i].window);
  }

  // ----- Reaching the bound -----

  /** A request that looks its bucket up at 0 and deducts at 5000. */
  const SLOW := Clock(0, 5000, 5000, 5000, 5000, 5000)

  function Instant(at: int): Clock {
    Clock(at, at, at, at, at, at)
  }

  /** `n` grants so far, the first at 5000 and the last at `at`, and the entry they left. */
  ghost predicate Reached(w: World, n: nat, e: Entry, at: int) {
    && w.entry == Some(e) && w.now == at
    && |w.log.grants| == n > 0 && w.log.grants[0].at == 5000 && w.log.grants[n - 1].at == at
  }

  ghost predicate Reaches(requests: seq<Clock>, limit: nat, n: nat, e: Entry, at: int) {
    IsRun(requests, limit) && Reached(Run(requests, limit), n, e, at)
  }

  lemma GrantReaches(w: World, limit: nat, n: nat, e: Entry, from: int, at: int)
    requires Reached(w, n, e, from) && from <= at
    requires if at > e.reset then limit > 0 else e.used < limit
    ensures Reached(Next(w, Instant(at), limit), n + 1,
                    if at > e.reset then Entry(1, at + WINDOW) else Entry(e.used + 1, e.reset), at)
  {
  }

  lemma OneGrant(requests: seq<Clock>, limit: nat, n: nat, e: Entry, from: int, at: int) returns (more: seq<Clock>)
    requires Reaches(requests, limit, n, e, from) && from <= at
    requires if at > e.reset then limit > 0 else e.used < limit
    ensures Reaches(more, limit, n + 1, if at > e.reset then Entry(1, at + WINDOW) else Entry(e.used + 1, e.reset), at)
  {
    more := requests + [Instant(at)];
    assert more[..|more| - 1] == requests;
    GrantReaches(Run(requests, limit), limit, n, e, from, at);
  }

  lemma OneMoreInWindow(requests: seq<Clock>, limit: nat, n: nat, used: nat, reset: int, at: int)
    returns (more: seq<Clock>)
    requires used < limit && at <= reset && Reaches(requests, limit, n, Entry(used, reset), at)
    ensures Reaches(more, limit, n + 1, Entry(used + 1, reset), at)
  {
    more := OneGrant(requests, limit, n, Entry(used, reset), at, at);
  }

  /** Use up a window. */
  lemma {:induction false} Fill(requests: seq<Clock>, limit: nat, n: nat, used: nat, reset: int, at: int)
    returns (more: seq<Clock>)
    requires used <= limit && at <= reset && Reaches(requests, limit, n, Entry(used, reset), at)
    ensures Reaches(more, limit, n + limit - used, Entry(limit, reset), at)
    decreases limit - used
  {
    if used == limit {
      more := requests;
    } else {
      var next := OneMoreInWindow(requests, limit, n, used, reset, at);
      more := Fill(next, limit, n + 1, used + 1, reset, at);
    }
  }

  lemma SlowStart(limit: nat)
    requires limit >= 1
    ensures Reaches([SLOW], limit, 1, Entry(1, 10000), 5000)
  {
    assert [SLOW][..0] == [];
    assert Run([SLOW], limit) == Next(FRESH, SLOW, limit);
  }

  /** Twice the limit is reached by a run whose first request was slow. */
  lemma TwiceTheLimitReached(limit: nat) returns (requests: seq<Clock>)
    requires limit >= 1
    ensures IsRun(requests, limit)
    ensures var grants := Run(requests, limit).log.grants;
      |grants| == 2 * limit && grants[|grants| - 1].at - grants[0].at <= WINDOW
  {
    SlowStart(limit);
    requests := Fill([SLOW], limit, 1, 1, 10000, 5000);
    requests := OneGrant(requests, limit, limit, Entry(limit, 10000), 5000, 10001);
    requests := Fill(requests, limit, limit + 1, 1, 20001, 10001);
  }

  // ----- Many keys -----

  /** A request for one of many keys, each with its limit. */
  datatype Request = Request(key: nat, clock: Clock)

  /** The stored entries after a request. */
  function Served(entries: map<nat, Entry>, limits: nat -> nat, r: Request): map<nat, Entry> {
    var e := EntryAt(Lookup(entries, r.key), r.clock);
    if Remaining(e, limits(r.key), r.clock.remaining) == 0 then entries else entries[r.key := Deducted(e, r.clock)]
  }

  function ServedAll(limits: nat -> nat, requests: seq<Request>): map<nat, Entry>
    decreases |requests|
  {
    if requests == [] then map[]
    else Served(ServedAll(limits, requests[..|requests| - 1]), limits, requests[|requests| - 1])
  }

  function Of(requests: seq<Request>, key: nat): seq<Clock>
    decreases |requests|
  {
    if requests == [] then []
    else
      var r := requests[|requests| - 1];
      Of(requests[..|requests| - 1], key) + if r.key == key then [r.clock] else []
  }

  /** Each key's bucket is what the requests for that key alone make of it: no key counts against another. */
  lemma {:induction false} KeysAreIndependent(limits: nat -> nat, requests: seq<Request>, key: nat)
    ensures var entries, entry := ServedAll(limits, requests), Run(Of(requests, key), limits(key)).entry;
      (key in entries <==> entry.Some?) && (key in entries ==> entries[key] == entry.value)
    decreases |requests|
  {
    if requests != [] {
      var init, r := requests[..|requests| - 1], requests[|requests| - 1];
      KeysAreIndependent(limits, init, key);
      if r.key == key {
        assert (Of(init, key) + [r.clock])[..|Of(init, key)|] == Of(init, key);
      } else {
        assert Of(requests, key) == Of(init, key);
      }
    }
  }

  // ----- The time a refused request is told to wait -----

  /**
   A request refused with a positive limit is told exactly how long its window still lasts: another one is accepted
   if and only if it reads the clock after that time.
   */
  lemma RefusedUntilReset(w: World, limit: nat, c: Clock, again: Clock)
    requires w.entry.Some? && w.entry.value.used <= limit && limit > 0
    requires Remaining(w.entry.value, limit, c.remaining) == 0 && c.left <= again.remaining
    ensures var wait := UntilReset(w.entry.value, c.left);
      && (wait > 0 ==> (Remaining(w.entry.value, limit, again.remaining) == 0 <==> again.remaining <= c.left + wait))
      && (wait == 0 && again.remaining > c.left ==> Remaining(w.entry.value, limit, again.remaining) == limit)
  {
  }
}
