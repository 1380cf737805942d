/** The beacon's single-use session tokens. Times are in milliseconds. */
module Sessions {
  import opened Models

  const MAX_SESSIONS := 1000
  const SESSION_TTL := 60000

  /** A stored token; `serial` numbers the insertions, so that a reused name is told apart. */
  datatype Session = Session(peer: string, createdAt: int, used: bool, serial: nat)

  predicate Expired(s: Session, now: int) {
    now - s.createdAt >= SESSION_TTL
  }

  function Evicted(tokens: map<string, Session>, now: int): map<string, Session> {
    map t | t in tokens && !Expired(tokens[t], now) :: tokens[t]
  }

  predicate Fits(tokens: map<string, Session>, now: int) {
    |Evicted(tokens, now)| < MAX_SESSIONS
  }

  predicate Consumable(tokens: map<string, Session>, token: string, now: int) {
    token in tokens && !tokens[token].used && !Expired(tokens[token], now)
  }

  class SessionStore {
    var tokens: map<string, Session>
    var inserted: nat

    constructor ()
      ensures tokens == map[] && inserted == 0
    {
      tokens, inserted := map[], 0;
    }

    method EvictExpired(now: int)
      modifies this`tokens
      ensures tokens == Evicted(old(tokens), now)
    {
      ghost var before := tokens;
      var rest := tokens.Keys;
      while rest != {}
        invariant rest <= before.Keys
        invariant tokens == before - (set t | t in before && t !in rest && Expired(before[t], now))
        decreases rest
      {
        var t :| t in rest;
        rest := rest - {t};
        if Expired(tokens[t], now) {
          tokens := tokens - {t};
        }
      }
    }

    method Insert(token: string, peer: string, now: int) returns (ok: bool)
      modifies this
      ensures ok <==> Fits(old(tokens), now)
      ensures tokens == if ok then Evicted(old(tokens), now)[token := Session(peer, now, false, old(inserted))]
                        else Evicted(old(tokens), now)
      ensures inserted == if ok then old(inserted) + 1 else old(inserted)
    {
      EvictExpired(now);
      if |tokens| >= MAX_SESSIONS {
        return false;
      }
      tokens, inserted := tokens[token := Session(peer, now, false, inserted)], inserted + 1;
      ok := true;
    }

    method Consume(token: string, now: int) returns (peer: Option<string>)
      modifies this`tokens
      ensures peer.Some? <==> Consumable(old(tokens), token, now)
      ensures peer.Some? ==>
        peer.value == old(tokens)[token].peer && tokens == old(tokens)[token := old(tokens)[token].(used := true)]
      ensures peer.None? ==> tokens == old(tokens)
    {
      if token !in tokens {
        return None;
      }
      var entry := tokens[token];
      if entry.used || Expired(entry, now) {
        return None;
      }
      tokens := tokens[token := entry.(used := true)];
      return Some(entry.peer);
    }
  }

  // ----- Every run -----

  datatype Issue = Issue(token: string, peer: string, at: int)

  datatype Use = Use(serial: nat, token: string, peer: string, at: int)

  /** The store with everything ever inserted and consumed. */
  datatype World = World(tokens: map<string, Session>, issues: seq<Issue>, uses: seq<Use>)

  datatype Step = Put(token: string, peer: string, now: int) | Spend(token: string, now: int) | Evict(now: int)

  function Next(w: World, step: Step): World {
    match step
    case Put(token, peer, now) =>
      if Fits(w.tokens, now) then
        w.(tokens := Evicted(w.tokens, now)[token := Session(peer, now, false, |w.issues|)],
           issues := w.issues + [Issue(token, peer, now)])
      else w.(tokens := Evicted(w.tokens, now))
    case Spend(token, now) =>
      if Consumable(w.tokens, token, now) then
        var s := w.tokens[token];
        w.(tokens := w.tokens[token := s.(used := true)], uses := w.uses + [Use(s.serial, token, s.peer, now)])
      else w
    case Evict(now) => w.(tokens := Evicted(w.tokens, now))
  }

  function Run(steps: seq<Step>): World
    decreases |steps|
  {
    if steps == [] then World(map[], [], []) else Next(Run(steps[..|steps| - 1]), steps[|steps| - 1])
  }

  /** A stored token is one of the insertions, under its own name. */
  ghost predicate Genuine(w: World, token: string)
    requires token in w.tokens
  {
    var s := w.tokens[token];
    s.serial < |w.issues| && w.issues[s.serial] == Issue(token, s.peer, s.createdAt)
  }

  /** A use was of an insertion of that token, for its peer, less than sixty seconds old. */
  ghost predicate Timely(w: World, u: Use) {
    && u.serial < |w.issues|
    && w.issues[u.serial].token == u.token && w.issues[u.serial].peer == u.peer
    && u.at - w.issues[u.serial].at < SESSION_TTL
  }

  ghost predicate Invariant(w: World) {
    && |w.tokens| <= MAX_SESSIONS
    && (forall t :: t in w.tokens ==> Genuine(w, t))
    && (forall i :: 0 <= i < |w.uses| ==> Timely(w, w.uses[i]))
    && (forall i, j :: 0 <= i < j < |w.uses| ==> w.uses[i].serial != w.uses[j].serial)
    && (forall t, i :: t in w.tokens && 0 <= i < |w.uses| && !w.tokens[t].used ==>
          w.uses[i].serial != w.tokens[t].serial)
  }

  lemma SmallerMap<K, V>(a: map<K, V>, b: map<K, V>)
    requires a.Keys <= b.Keys
    ensures |a| <= |b|
    decreases |a|
  {
    if a.Keys != {} {
      var k :| k in a.Keys;
      SmallerMap(a - {k}, b - {k});
    }
  }

  lemma EvictKeeps(w: World, now: int)
    requires Invariant(w)
    ensures Invariant(w.(tokens := Evicted(w.tokens, now)))
  {
    var v := w.(tokens := Evicted(w.tokens, now));
    SmallerMap(v.tokens, w.tokens);
    forall t | t in v.tokens ensures Genuine(v, t) {
      assert Genuine(w, t);
    }
    forall i | 0 <= i < |v.uses| ensures Timely(v, v.uses[i]) {
      assert Timely(w, w.uses[i]);
    }
  }

  lemma StoreKeeps(w: World, token: string, peer: string, now: int)
    requires Invariant(w) && |w.tokens| < MAX_SESSIONS
    ensures Invariant(World(w.tokens[token := Session(peer, now, false, |w.issues|)],
                            w.issues + [Issue(token, peer, now)], w.uses))
  {
    var v := World(w.tokens[token := Session(peer, now, false, |w.issues|)],
                   w.issues + [Issue(token, peer, now)], w.uses);
    assert v.tokens.Keys == w.tokens.Keys + {token};
    forall t | t in v.tokens ensures Genuine(v, t) {
      if t != token {
        assert Genuine(w, t);
      }
    }
    forall i | 0 <= i < |v.uses| ensures Timely(v, v.uses[i]) {
      assert Timely(w, w.uses[i]);
    }
    forall t, i | t in v.tokens && 0 <= i < |v.uses| && !v.tokens[t].used
      ensures v.uses[i].serial != v.tokens[t].serial
    {
      assert Timely(w, w.uses[i]);
    }
  }

  lemma PutKeeps(w: World, token: string, peer: string, now: int)
    requires Invariant(w)
    ensures Invariant(Next(w, Put(token, peer, now)))
  {
    EvictKeeps(w, now);
    if Fits(w.tokens, now) {
      StoreKeeps(w.(tokens := Evicted(w.tokens, now)), token, peer, now);
    }
  }

  /** Two stored tokens never share an insertion. */
  lemma SerialsDiffer(w: World, a: string, b: string)
    requires Invariant(w) && a in w.tokens && b in w.tokens && a != b
    ensures w.tokens[a].serial != w.tokens[b].serial
  {
    assert Genuine(w, a) && Genuine(w, b);
  }

  lemma SpentTokens(w: World, token: string, now: int)
    requires Invariant(w) && Consumable(w.tokens, token, now)
    ensures var v := Next(w, Spend(token, now));
      |v.tokens| <= MAX_SESSIONS && forall t :: t in v.tokens ==> Genuine(v, t)
  {
    var v := Next(w, Spend(token, now));
    assert v.tokens.Keys == w.tokens.Keys;
    forall t | t in v.tokens ensures Genuine(v, t) {
      assert Genuine(w, t);
    }
  }

  lemma SpentUses(w: World, token: string, now: int)
    requires Invariant(w) && Consumable(w.tokens, token, now)
    ensures var v := Next(w, Spend(token, now));
      && (forall i :: 0 <= i < |v.uses| ==> Timely(v, v.uses[i]))
      && (forall i, j :: 0 <= i < j < |v.uses| ==> v.uses[i].serial != v.uses[j].serial)
  {
    var v := Next(w, Spend(token, now));
    assert Genuine(w, token);
    forall i | 0 <= i < |v.uses| ensures Timely(v, v.uses[i]) {
      if i < |w.uses| {
        assert Timely(w, w.uses[i]);
      }
    }
  }

  lemma UnspentUnused(w: World, token: string, now: int, t: string, i: nat)
    requires Invariant(w) && Consumable(w.tokens, token, now)
    requires t in w.tokens && t != token && !w.tokens[t].used && i < |Next(w, Spend(token, now)).uses|
    ensures Next(w, Spend(token, now)).uses[i].serial != w.tokens[t].serial
  {
    SerialsDiffer(w, t, token);
  }

  lemma SpendKeeps(w: World, token: string, now: int)
    requires Invariant(w)
    ensures Invariant(Next(w, Spend(token, now)))
  {
    if Consumable(w.tokens, token, now) {
      var v := Next(w, Spend(token, now));
      SpentTokens(w, token, now);
      SpentUses(w, token, now);
      forall t, i | t in v.tokens && 0 <= i < |v.uses| && !v.tokens[t].used
        ensures v.uses[i].serial != v.tokens[t].serial
      {
        UnspentUnused(w, token, now, t, i);
      }
    }
  }

  /**
   In every run each insertion is consumed at most once, within sixty seconds and for its own peer; at most
   1000 are stored.
   */
  lemma {:induction false} EveryRunSingleUse(steps: seq<Step>)
    ensures Invariant(Run(steps))
    decreases |steps|
  {
    if steps != [] {
      EveryRunSingleUse(steps[..|steps| - 1]);
      var w := Run(steps[..|steps| - 1]);
      match steps[|steps| - 1] {
        case Put(token, peer, now) => PutKeeps(w, token, peer, now);
        case Spend(token, now) => SpendKeeps(w, token, now);
        case Evict(now) => EvictKeeps(w, now);
      }
    }
  }

  /** Eviction never takes a token that could still be consumed. */
  lemma EvictionSparesConsumable(w: World, token: string, now: int, later: int)
    requires now <= later
    ensures Consumable(Evicted(w.tokens, now), token, later) <==> Consumable(w.tokens, token, later)
  {
  }

  // ----- What a token is good for -----

  /** Step `k` stored the token for the peer at `t`, and no later step is about it or comes a minute later. */
  ghost predicate StoredAt(steps: seq<Step>, k: nat, token: string, peer: string, t: int) {
    && k < |steps| && steps[k] == Put(token, peer, t) && Fits(Run(steps[..k]).tokens, t)
    && forall i :: k < i < |steps| ==> SparesToken(steps[i], token, t)
  }

  predicate SparesToken(step: Step, token: string, t: int) {
    match step
    case Put(other, _, now) => other != token && now - t < 60000
    case Spend(other, _) => other != token
    case Evict(now) => now - t < 60000
  }

  ghost predicate Waiting(w: World, token: string, peer: string, t: int) {
    && token in w.tokens && w.tokens[token].peer == peer && w.tokens[token].createdAt == t && !w.tokens[token].used
  }

  lemma {:induction false} StoredIsWaiting(steps: seq<Step>, k: nat, token: string, peer: string, t: int)
    requires StoredAt(steps, k, token, peer, t)
    ensures Waiting(Run(steps), token, peer, t)
    decreases |steps|
  {
    var init := steps[..|steps| - 1];
    if k < |init| {
      assert init[..k] == steps[..k] && init[k] == steps[k];
      forall i | k < i < |init| ensures SparesToken(init[i], token, t) {
        assert init[i] == steps[i];
      }
      StoredIsWaiting(init, k, token, peer, t);
      assert SparesToken(steps[|steps| - 1], token, t);
    }
  }

  /** The uses a consumption adds. */
  function NewUses(w: World, step: Step): seq<Use> {
    var uses := Next(w, step).uses;
    if |w.uses| <= |uses| then uses[|w.uses|..] else []
  }

  /**
   A token that was stored is good for one use by its own peer within sixty seconds: a consumption succeeds if and
   only if it comes before they are over, and no further one succeeds after it.
   */
  lemma StoredIsGoodForOneUse(
    steps: seq<Step>, k: nat, token: string, peer: string, t: int, now: int, later: int)
    requires StoredAt(steps, k, token, peer, t)
    ensures var w := Run(steps);
      var v := Next(w, Spend(token, now));
      && (NewUses(w, Spend(token, now)) != [] <==> now - t < 60000)
      && (now - t < 60000 ==>
            && |NewUses(w, Spend(token, now))| == 1 && NewUses(w, Spend(token, now))[0].token == token
            && NewUses(w, Spend(token, now))[0].peer == peer && NewUses(w, Spend(token, now))[0].at == now
            && NewUses(v, Spend(token, later)) == [])
  {
    StoredIsWaiting(steps, k, token, peer, t);
  }

  /** There is room if and only if fewer than 1000 of the stored tokens are younger than sixty seconds. */
  lemma RoomIff(tokens: map<string, Session>, now: int)
    ensures Fits(tokens, now) <==> |set t | t in tokens && now - tokens[t].createdAt < 60000| < 1000
  {
    assert Evicted(tokens, now).Keys == set t | t in tokens && now - tokens[t].createdAt < 60000;
  }
}
