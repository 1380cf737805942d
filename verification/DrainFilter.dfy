/**
 The filter a drain applies to the messages it took from a queue: envelopes from
 before a channel's last purge are dropped. The channel's epoch is looked up once
 per drain and channel, at the first message that needs it.
 */
module DrainFilter {
  import opened Models

  /** Present when the message is an encrypted envelope of a channel. */
  datatype Tag = Tag(channel: string, epoch: int)

  datatype Message = Message(body: string, tag: Option<Tag>)

  type Epochs = map<string, int>

  /** A channel that was never purged has epoch 0. */
  function EpochOf(epochs: Epochs, channel: string): int {
    if channel in epochs then epochs[channel] else 0
  }

  /** What a lookup returns at some moment; a failed lookup counts as epoch 0. */
  function LookedUp(epochs: Epochs, up: bool, channel: string): int {
    if up then EpochOf(epochs, channel) else 0
  }

  // ----- Specification -----

  predicate Uses(m: Message, channel: string) {
    m.tag.Some? && m.tag.value.channel == channel
  }

  /** The first message that needs the channel's epoch. */
  function FirstUse(messages: seq<Message>, channel: string): (k: nat)
    ensures k <= |messages|
    ensures forall i :: 0 <= i < k ==> !Uses(messages[i], channel)
    ensures k < |messages| ==> Uses(messages[k], channel)
  {
    if messages == [] || Uses(messages[0], channel) then 0 else 1 + FirstUse(messages[1..], channel)
  }

  /** `mirror(i)` and `up(i)` describe the epoch store at the moment message `i` is examined. */
  predicate Keeps(messages: seq<Message>, mirror: nat -> Epochs, up: nat -> bool, m: Message) {
    m.tag.Some? ==>
      var k := FirstUse(messages, m.tag.value.channel);
      m.tag.value.epoch >= LookedUp(mirror(k), up(k), m.tag.value.channel)
  }

  function Filtered(messages: seq<Message>, keep: Message -> bool): seq<Message>
    decreases |messages|
  {
    if messages == [] then []
    else
      var init, last := messages[..|messages| - 1], messages[|messages| - 1];
      Filtered(init, keep) + if keep(last) then [last] else []
  }

  function Kept(messages: seq<Message>, mirror: nat -> Epochs, up: nat -> bool): seq<Message> {
    Filtered(messages, m => Keeps(messages, mirror, up, m))
  }

  // ----- The loop -----

  /** The cache holds the epochs looked up by the first `i` messages. */
  ghost predicate Remembers(
    cache: map<string, int>, messages: seq<Message>, i: nat, mirror: nat -> Epochs, up: nat -> bool)
  {
    && (forall c :: c in cache <==> FirstUse(messages, c) < i)
    && (forall c :: c in cache ==> var k := FirstUse(messages, c); cache[c] == LookedUp(mirror(k), up(k), c))
  }

  /** The epoch for the message at `i`, looked up only if no earlier message needed it. */
  method Lookup(cache: map<string, int>, messages: seq<Message>, i: nat, mirror: nat -> Epochs, up: nat -> bool)
    returns (next: map<string, int>)
    requires i < |messages| && messages[i].tag.Some?
    requires Remembers(cache, messages, i, mirror, up)
    ensures Remembers(next, messages, i + 1, mirror, up)
    ensures messages[i].tag.value.channel in next
  {
    var channel := messages[i].tag.value.channel;
    assert FirstUse(messages, channel) <= i;
    assert forall c :: FirstUse(messages, c) == i ==> c == channel;
    next := if channel in cache then cache else cache[channel := LookedUp(mirror(i), up(i), channel)];
  }

  method FilterPrePurge(messages: seq<Message>, mirror: nat -> Epochs, up: nat -> bool) returns (kept: seq<Message>)
    ensures kept == Kept(messages, mirror, up)
  {
    kept := [];
    var cache: map<string, int> := map[];
    ghost var keep := m => Keeps(messages, mirror, up, m);
    for i := 0 to |messages|
      invariant Remembers(cache, messages, i, mirror, up)
      invariant kept == Filtered(messages[..i], keep)
    {
      var m := messages[i];
      assert messages[..i + 1][..i] == messages[..i];
      var keeps := true;
      if m.tag.Some? {
        cache := Lookup(cache, messages, i, mirror, up);
        keeps := m.tag.value.epoch >= cache[m.tag.value.channel];
      } else {
        assert forall c :: FirstUse(messages, c) != i;
      }
      if keeps {
        kept := kept + [m];
      }
    }
    assert messages[..|messages|] == messages;
  }

  // ----- What the filter guarantees -----

  lemma {:induction false} FilteredMembers(messages: seq<Message>, keep: Message -> bool, m: Message)
    ensures m in Filtered(messages, keep) <==> m in messages && keep(m)
    decreases |messages|
  {
    if messages != [] {
      var init, last := messages[..|messages| - 1], messages[|messages| - 1];
      FilteredMembers(init, keep, m);
      assert m in messages <==> m in init || m == last;
    }
  }

  lemma {:induction false} FilteredCongruence(messages: seq<Message>, f: Message -> bool, g: Message -> bool)
    requires forall m :: m in messages ==> f(m) == g(m)
    ensures Filtered(messages, f) == Filtered(messages, g)
    decreases |messages|
  {
    if messages != [] {
      FilteredCongruence(messages[..|messages| - 1], f, g);
      assert messages[|messages| - 1] in messages;
    }
  }

  /** A separate lookup for every message, in a store that does not change. */
  predicate DirectlyKept(epochs: Epochs, m: Message) {
    m.tag.Some? ==> m.tag.value.epoch >= EpochOf(epochs, m.tag.value.channel)
  }

  /** With a steady store the remembered lookups select exactly what separate lookups would. */
  lemma MemoMatchesDirect(messages: seq<Message>, epochs: Epochs)
    ensures Kept(messages, _ => epochs, _ => true) == Filtered(messages, m => DirectlyKept(epochs, m))
  {
    FilteredCongruence(messages,
      m => Keeps(messages, _ => epochs, _ => true, m), m => DirectlyKept(epochs, m));
  }

  ghost predicate NeverDecreases(mirror: nat -> Epochs) {
    forall i: nat, j: nat, c: string :: i <= j ==> EpochOf(mirror(i), c) <= EpochOf(mirror(j), c)
  }

  /**
   If epochs never decrease and its channel's lookup succeeds, nothing older than the epoch at that
   lookup, or at any moment before it, is returned.
   */
  lemma NothingStaleIsReturned(messages: seq<Message>, mirror: nat -> Epochs, up: nat -> bool, m: Message)
    requires NeverDecreases(mirror) && m in Kept(messages, mirror, up)
    requires m.tag.Some? && up(FirstUse(messages, m.tag.value.channel))
    ensures forall i: nat :: i <= FirstUse(messages, m.tag.value.channel) ==>
      m.tag.value.epoch >= EpochOf(mirror(i), m.tag.value.channel)
  {
    FilteredMembers(messages, x => Keeps(messages, mirror, up, x), m);
  }

  /** Whether or not its channel's lookup fails, nothing at or above the epoch at that moment is dropped. */
  lemma NothingFreshIsDropped(messages: seq<Message>, mirror: nat -> Epochs, up: nat -> bool, m: Message)
    requires m in messages
    requires m.tag.Some? ==>
      var epoch := EpochOf(mirror(FirstUse(messages, m.tag.value.channel)), m.tag.value.channel);
      0 <= epoch <= m.tag.value.epoch
    ensures m in Kept(messages, mirror, up)
  {
    FilteredMembers(messages, x => Keeps(messages, mirror, up, x), m);
  }

  // ----- Places in the result -----

  /** How many of the first `k` messages are kept: the place in the result of the k-th, if it is. */
  function Rank(messages: seq<Message>, keep: Message -> bool, k: nat): nat
    requires k <= |messages|
  {
    |Filtered(messages[..k], keep)|
  }

  lemma {:induction false} KeptPlace(messages: seq<Message>, keep: Message -> bool, k: nat)
    requires k < |messages| && keep(messages[k])
    ensures Rank(messages, keep, k) < |Filtered(messages, keep)|
    ensures Filtered(messages, keep)[Rank(messages, keep, k)] == messages[k]
    decreases |messages|
  {
    var init := messages[..|messages| - 1];
    assert init[..k] == messages[..k];
    if k < |init| {
      KeptPlace(init, keep, k);
    }
  }

  lemma RankGrows(messages: seq<Message>, keep: Message -> bool, j: nat, k: nat)
    requires j < k <= |messages| && keep(messages[j])
    ensures Rank(messages, keep, j) < Rank(messages, keep, k)
  {
    KeptPlace(messages[..k], keep, j);
    assert messages[..k][..j] == messages[..j];
  }

  lemma {:induction false} KeptSource(messages: seq<Message>, keep: Message -> bool, r: nat) returns (k: nat)
    requires r < |Filtered(messages, keep)|
    ensures k < |messages| && keep(messages[k]) && Rank(messages, keep, k) == r
    decreases |messages|
  {
    var init := messages[..|messages| - 1];
    if r < |Filtered(init, keep)| {
      k := KeptSource(init, keep, r);
      assert init[..k] == messages[..k];
    } else {
      k := |messages| - 1;
    }
  }

  // ----- Exactly what is kept -----

  /** Message `k` is the first of the channel. */
  ghost predicate FirstOf(messages: seq<Message>, channel: string, k: nat) {
    && k < |messages| && messages[k].tag.Some? && messages[k].tag.value.channel == channel
    && forall i :: 0 <= i < k && messages[i].tag.Some? ==> messages[i].tag.value.channel != channel
  }

  /**
   A message is kept if and only if it is no envelope, or its epoch is not below the one its channel had when the
   first envelope of that channel was examined: 0 if that lookup failed or the channel was never purged.
   */
  lemma KeptIff(messages: seq<Message>, mirror: nat -> Epochs, up: nat -> bool, m: Message, k: nat)
    requires m in messages && (m.tag.Some? ==> FirstOf(messages, m.tag.value.channel, k))
    ensures m in Kept(messages, mirror, up) <==>
      || m.tag.None?
      || m.tag.value.epoch >= (if up(k) && m.tag.value.channel in mirror(k) then mirror(k)[m.tag.value.channel] else 0)
  {
    FilteredMembers(messages, x => Keeps(messages, mirror, up, x), m);
    if m.tag.Some? {
      var f := FirstUse(messages, m.tag.value.channel);
      assert !(f < k) && !(k < f);
    }
  }
}
