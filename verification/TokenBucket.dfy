/** The beacon's token bucket: ten tokens at most, refilled at ten a second. Time is in seconds. */
module TokenBucket {
  const MAX_TOKENS := 10.0
  const REFILL_RATE := 10.0

  datatype Bucket = Bucket(tokens: real, lastRefill: real)

  function Full(now: real): Bucket {
    Bucket(MAX_TOKENS, now)
  }

  function Refilled(b: Bucket, now: real): real {
    var tokens := b.tokens + (now - b.lastRefill) * REFILL_RATE;
    if tokens < MAX_TOKENS then tokens else MAX_TOKENS
  }

  predicate Allows(b: Bucket, now: real) {
    Refilled(b, now) >= 1.0
  }

  function Called(b: Bucket, now: real): Bucket {
    Bucket(if Allows(b, now) then Refilled(b, now) - 1.0 else Refilled(b, now), now)
  }

  class Limiter {
    var tokens: real
    var lastRefill: real

    constructor (now: real)
      ensures B() == Full(now)
    {
      tokens, lastRefill := MAX_TOKENS, now;
    }

    function B(): Bucket
      reads this
    {
      Bucket(tokens, lastRefill)
    }

    method Allow(now: real) returns (ok: bool)
      modifies this
      ensures ok <==> Allows(old(B()), now)
      ensures B() == Called(old(B()), now)
    {
      var elapsed := now - lastRefill;
      tokens := tokens + elapsed * REFILL_RATE;
      if tokens > MAX_TOKENS {
        tokens := MAX_TOKENS;
      }
      lastRefill := now;
      if tokens >= 1.0 {
        tokens := tokens - 1.0;
        return true;
      }
      return false;
    }
  }

  /** The bucket, created at `start`, after the calls at `times`. */
  function After(start: real, times: seq<real>): Bucket
    decreases |times|
  {
    if times == [] then Full(start) else Called(After(start, times[..|times| - 1]), times[|times| - 1])
  }

  ghost predicate Forward(start: real, times: seq<real>) {
    && (forall i :: 0 <= i < |times| ==> start <= times[i])
    && (forall i, j :: 0 <= i < j < |times| ==> times[i] <= times[j])
  }

  /** How many of the calls from `i` up to `j` were allowed. */
  ghost function Allowed(start: real, times: seq<real>, i: nat, j: nat): nat
    requires i <= j <= |times|
    decreases j
  {
    if i == j then 0
    else Allowed(start, times, i, j - 1) + if Allows(After(start, times[..j - 1]), times[j - 1]) then 1 else 0
  }

  lemma CallStep(start: real, times: seq<real>, j: nat)
    requires 0 < j <= |times|
    ensures After(start, times[..j]) == Called(After(start, times[..j - 1]), times[j - 1])
  {
    assert times[..j][..j - 1] == times[..j - 1];
  }

  /** The tokens stay between 0 and 10, and the last refill was at the last call. */
  lemma {:induction false} TokensBounded(start: real, times: seq<real>, j: nat)
    requires Forward(start, times) && j <= |times|
    ensures 0.0 <= After(start, times[..j]).tokens <= MAX_TOKENS
    ensures After(start, times[..j]).lastRefill == if j == 0 then start else times[j - 1]
    decreases j
  {
    if j > 0 {
      TokensBounded(start, times, j - 1);
      CallStep(start, times, j);
    }
  }

  /** What was let through, with what is left, never exceeds a full bucket and the refill since. */
  lemma {:induction false} TokensAccountedFor(start: real, times: seq<real>, i: nat, j: nat)
    requires Forward(start, times) && i < j <= |times|
    ensures Allowed(start, times, i, j) as real + After(start, times[..j]).tokens
         <= MAX_TOKENS + REFILL_RATE * (times[j - 1] - times[i])
    decreases j
  {
    CallStep(start, times, j);
    TokensBounded(start, times, j - 1);
    if i < j - 1 {
      TokensAccountedFor(start, times, i, j - 1);
    }
  }

  /** The calls in any interval of `length` seconds that are allowed number at most 10 + 10 * length. */
  lemma IntervalBounded(start: real, times: seq<real>, i: nat, j: nat, length: real)
    requires Forward(start, times) && i < j <= |times| && times[j - 1] - times[i] <= length
    ensures Allowed(start, times, i, j) as real <= 10.0 + 10.0 * length
  {
    TokensAccountedFor(start, times, i, j);
    TokensBounded(start, times, j);
  }

  /** A call at least a tenth of a second after the one before is never refused, whatever came earlier. */
  lemma PatientCallAllowed(start: real, times: seq<real>, j: nat)
    requires Forward(start, times) && j < |times|
    requires j > 0 ==> times[j] - times[j - 1] >= 0.1
    ensures Allows(After(start, times[..j]), times[j])
  {
    TokensBounded(start, times, j);
    if j == 0 {
      assert times[..0] == [];
    }
  }

  /** Ten calls at once are allowed, and an eleventh is not. */
  lemma {:induction false} BurstReachesBound(start: real, times: seq<real>, n: nat)
    requires forall i :: 0 <= i < |times| ==> times[i] == start
    requires n <= |times| && n <= 10
    ensures After(start, times[..n]).tokens == MAX_TOKENS - n as real && After(start, times[..n]).lastRefill == start
    ensures Allowed(start, times, 0, n) == n
    ensures n == 10 && |times| > 10 ==> !Allows(After(start, times[..10]), times[10])
    decreases n
  {
    if n > 0 {
      BurstReachesBound(start, times, n - 1);
      CallStep(start, times, n);
    }
  }

  /** After ten calls at once the next one is allowed exactly from a tenth of a second later on. */
  lemma EmptyBucketWaits(start: real, times: seq<real>, wait: real)
    requires |times| == 10 && wait >= 0.0 && forall i :: 0 <= i < |times| ==> times[i] == start
    ensures Allows(After(start, times), start + wait) <==> wait >= 0.1
  {
    BurstReachesBound(start, times, 10);
    assert times[..10] == times;
  }
}
