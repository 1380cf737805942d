/**
 The signer's token claims. A claim request checks the token first and inserts
 its row in a later transaction; other requests may run in between.
 */
module Claims {
  import opened Collections

  datatype Token = Token(expires: int, used: bool, maxClaims: int, claimCount: nat)

  type Tokens = map<string, Token>

  /** Each claim's key with the token it claims. */
  type Rows = map<string, string>

  function RowsFor(claims: Rows, token: string): set<string> {
    set key | key in claims && claims[key] == token
  }

  predicate Claimable(tokens: Tokens, token: string, now: int) {
    token in tokens && !tokens[token].used && now <= tokens[token].expires
  }

  /** A token row after a claim more. */
  function Counted(t: Token): Token {
    var more := t.(claimCount := t.claimCount + 1);
    if more.claimCount >= more.maxClaims then more.(used := true) else more
  }

  function TokensAfter(tokens: Tokens, claims: Rows, token: string, key: string): Tokens {
    if key in claims || token !in tokens then tokens else tokens[token := Counted(tokens[token])]
  }

  function RowsAfter(claims: Rows, token: string, key: string): Rows {
    if key in claims then claims else claims[key := token]
  }

  class Database {
    var tokens: Tokens
    var claims: Rows

    constructor ()
      ensures tokens == map[] && claims == map[]
    {
      tokens, claims := map[], map[];
    }

    /** The token can be claimed until it expires, whatever became of one of the same name before. */
    method CreateTokenRecord(token: string, expires: int, maxClaims: int)
      modifies this
      ensures forall now :: Claimable(tokens, token, now) <==> now <= expires
      ensures token in tokens && tokens[token].maxClaims == maxClaims && tokens[token].claimCount == 0
      ensures tokens - {token} == old(tokens) - {token} && claims == old(claims)
    {
      tokens := tokens[token := Token(expires, false, maxClaims, 0)];
    }

    /** The transaction; a key that exists already rolls it back. */
    method InsertClaimAndUpdateToken(token: string, key: string) returns (ok: bool)
      modifies this
      ensures ok <==> key !in old(claims)
      ensures tokens == TokensAfter(old(tokens), old(claims), token, key)
      ensures claims == RowsAfter(old(claims), token, key)
    {
      if key in claims {
        return false;
      }
      claims := claims[key := token];
      if token in tokens {
        tokens := tokens[token := tokens[token].(claimCount := tokens[token].claimCount + 1)];
        if tokens[token].claimCount >= tokens[token].maxClaims {
          tokens := tokens[token := tokens[token].(used := true)];
        }
      }
      ok := true;
    }
  }

  // ----- Runs -----

  /**
   `pending` are the requests that passed their check; `earlier` is how many rows a token had when
   it was last created.
   */
  datatype Signer = Signer(tokens: Tokens, claims: Rows, pending: seq<string>, earlier: map<string, nat>)

  const START := Signer(map[], map[], [], map[])

  datatype Step =
    | Create(token: string, expires: int, maxClaims: int)
    | Check(token: string, now: int)
    | Abandon(index: nat)
    | Insert(index: nat, key: string)

  function CreatedToken(s: Signer, token: string, expires: int, maxClaims: int): Signer {
    s.(tokens := s.tokens[token := Token(expires, false, maxClaims, 0)],
       earlier := s.earlier[token := |RowsFor(s.claims, token)|])
  }

  function Inserted(s: Signer, token: string, key: string): Signer {
    s.(tokens := TokensAfter(s.tokens, s.claims, token, key), claims := RowsAfter(s.claims, token, key))
  }

  function WithoutPending(s: Signer, i: nat): Signer
    requires i < |s.pending|
  {
    s.(pending := s.pending[..i] + s.pending[i + 1..])
  }

  function Next(s: Signer, step: Step): Signer {
    match step
    case Create(token, expires, maxClaims) => CreatedToken(s, token, expires, maxClaims)
    case Check(token, now) => if Claimable(s.tokens, token, now) then s.(pending := s.pending + [token]) else s
    case Abandon(i) => if i < |s.pending| then WithoutPending(s, i) else s
    case Insert(i, key) => if i < |s.pending| then Inserted(WithoutPending(s, i), s.pending[i], key) else s
  }

  function EarlierOf(s: Signer, token: string): nat {
    if token in s.earlier then s.earlier[token] else 0
  }

  function PendingFor(pending: seq<string>, token: string): nat {
    if pending == [] then 0
    else PendingFor(pending[..|pending| - 1], token) + if pending[|pending| - 1] == token then 1 else 0
  }

  /** The number of claims a token is meant for. */
  function Quota(maxClaims: int): nat {
    if maxClaims < 1 then 1 else maxClaims
  }

  ghost predicate Possible(s: Signer, step: Step) {
    match step
    case Create(_, _, _) => true
    case Check(_, _) => true
    case Abandon(i) => i < |s.pending|
    case Insert(i, _) => i < |s.pending|
  }

  ghost predicate Within(s: Signer, k: nat) {
    forall token :: PendingFor(s.pending, token) <= k
  }

  function Run(steps: seq<Step>): Signer
    decreases |steps|
  {
    if steps == [] then START else Next(Run(steps[..|steps| - 1]), steps[|steps| - 1])
  }

  /** A run with never more than `k` requests for one token between check and transaction. */
  ghost predicate IsRun(steps: seq<Step>, k: nat)
    decreases |steps|
  {
    steps == [] ||
    (&& IsRun(steps[..|steps| - 1], k)
     && Possible(Run(steps[..|steps| - 1]), steps[|steps| - 1])
     && Within(Run(steps), k))
  }

  ghost predicate TokenOk(s: Signer, token: string)
    requires token in s.tokens
  {
    var t := s.tokens[token];
    && EarlierOf(s, token) + t.claimCount == |RowsFor(s.claims, token)|
    && (t.used <==> t.claimCount >= Quota(t.maxClaims))
  }

  ghost predicate Invariant(s: Signer) {
    && (forall token :: token in s.tokens ==> TokenOk(s, token))
    && (forall key :: key in s.claims ==> s.claims[key] in s.tokens)
    && (forall i :: 0 <= i < |s.pending| ==> s.pending[i] in s.tokens)
  }

  lemma CreateKeeps(s: Signer, token: string, expires: int, maxClaims: int)
    requires Invariant(s)
    ensures Invariant(CreatedToken(s, token, expires, maxClaims))
  {
    var t := CreatedToken(s, token, expires, maxClaims);
    forall other | other in t.tokens ensures TokenOk(t, other) {
      if other != token {
        assert TokenOk(s, other);
      }
    }
  }

  lemma InsertRows(claims: Rows, token: string, key: string, other: string)
    requires key !in claims
    ensures |RowsFor(RowsAfter(claims, token, key), other)|
         == |RowsFor(claims, other)| + if other == token then 1 else 0
  {
    assert RowsFor(RowsAfter(claims, token, key), other)
        == if other == token then RowsFor(claims, other) + {key} else RowsFor(claims, other);
  }

  lemma InsertKeeps(s: Signer, token: string, key: string)
    requires Invariant(s) && token in s.tokens
    ensures Invariant(Inserted(s, token, key))
  {
    var t := Inserted(s, token, key);
    if key !in s.claims {
      forall other | other in t.tokens ensures TokenOk(t, other) {
        InsertRows(s.claims, token, key, other);
        assert TokenOk(s, other);
      }
    }
  }

  lemma PendingKeeps(s: Signer, pending: seq<string>)
    requires Invariant(s) && forall i :: 0 <= i < |pending| ==> pending[i] in s.tokens
    ensures Invariant(s.(pending := pending))
  {
    var t := s.(pending := pending);
    forall token | token in t.tokens ensures TokenOk(t, token) {
      assert TokenOk(s, token);
    }
  }

  /**
   In every interleaving a token's claim count is the number of rows it got since it was created
   last, and it is used up exactly when they fill its quota.
   */
  lemma {:induction false} EveryRunCountsRows(steps: seq<Step>, k: nat)
    requires IsRun(steps, k)
    ensures Invariant(Run(steps))
    decreases |steps|
  {
    if steps != [] {
      EveryRunCountsRows(steps[..|steps| - 1], k);
      var s := Run(steps[..|steps| - 1]);
      match steps[|steps| - 1] {
        case Create(token, expires, maxClaims) => CreateKeeps(s, token, expires, maxClaims);
        case Check(token, now) =>
          if Claimable(s.tokens, token, now) {
            PendingKeeps(s, s.pending + [token]);
          }
        case Abandon(i) => PendingKeeps(s, s.pending[..i] + s.pending[i + 1..]);
        case Insert(i, key) =>
          PendingKeeps(s, s.pending[..i] + s.pending[i + 1..]);
          InsertKeeps(WithoutPending(s, i), s.pending[i], key);
      }
    }
  }

  /** The count covers all of a token's rows if and only if it had none when it was last created. */
  lemma CountsAllRowsIff(steps: seq<Step>, k: nat, token: string)
    requires IsRun(steps, k) && token in Run(steps).tokens
    ensures Run(steps).tokens[token].claimCount == |RowsFor(Run(steps).claims, token)|
       <==> EarlierOf(Run(steps), token) == 0
  {
    EveryRunCountsRows(steps, k);
    assert TokenOk(Run(steps), token);
  }

  /** Names are never used twice, as the service draws them. */
  ghost predicate FreshNames(steps: seq<Step>)
    decreases |steps|
  {
    steps == [] ||
    (&& FreshNames(steps[..|steps| - 1])
     && (steps[|steps| - 1].Create? ==> steps[|steps| - 1].token !in Run(steps[..|steps| - 1]).tokens))
  }

  /** With fresh names it always does. */
  lemma {:induction false} FreshNamesCountAll(steps: seq<Step>, k: nat, token: string)
    requires IsRun(steps, k) && FreshNames(steps)
    ensures EarlierOf(Run(steps), token) == 0
    decreases |steps|
  {
    if steps != [] {
      FreshNamesCountAll(steps[..|steps| - 1], k, token);
      EveryRunCountsRows(steps[..|steps| - 1], k);
      var s := Run(steps[..|steps| - 1]);
      if steps[|steps| - 1].Create? {
        assert RowsFor(s.claims, steps[|steps| - 1].token) == {};
      }
    }
  }

  // ----- How far a quota can be overrun -----

  lemma {:induction false} PendingConcat(a: seq<string>, b: seq<string>, token: string)
    ensures PendingFor(a + b, token) == PendingFor(a, token) + PendingFor(b, token)
    decreases |b|
  {
    if b == [] {
      assert a + b == a;
    } else {
      PendingConcat(a, b[..|b| - 1], token);
      assert (a + b)[..|a + b| - 1] == a + b[..|b| - 1];
    }
  }

  lemma PendingWithout(pending: seq<string>, i: nat, token: string)
    requires i < |pending|
    ensures PendingFor(pending[..i] + pending[i + 1..], token)
         == PendingFor(pending, token) - if pending[i] == token then 1 else 0
  {
    assert pending == pending[..i] + ([pending[i]] + pending[i + 1..]);
    PendingConcat(pending[..i], [pending[i]] + pending[i + 1..], token);
    PendingConcat([pending[i]], pending[i + 1..], token);
    PendingConcat(pending[..i], pending[i + 1..], token);
    assert [pending[i]][..0] == [];
  }

  /** A token's rows since it was created last, with the requests about to add one. */
  ghost function Load(s: Signer, token: string): nat {
    (if token in s.tokens then s.tokens[token].claimCount else 0) + PendingFor(s.pending, token)
  }

  ghost predicate Short(s: Signer, token: string) {
    token in s.tokens && Load(s, token) <= Quota(s.tokens[token].maxClaims) - 1 + PendingFor(s.pending, token)
  }

  lemma CheckLoad(s: Signer, other: string, now: int, token: string)
    requires Invariant(s)
    ensures var t := Next(s, Check(other, now)); t == s || Short(t, token) || Load(t, token) == Load(s, token)
  {
    if Claimable(s.tokens, other, now) {
      assert TokenOk(s, other);
      PendingConcat(s.pending, [other], token);
      assert [other][..0] == [];
    }
  }

  lemma InsertLoad(s: Signer, i: nat, key: string, token: string)
    requires Invariant(s) && i < |s.pending|
    ensures Load(Next(s, Insert(i, key)), token) <= Load(s, token)
  {
    PendingWithout(s.pending, i, token);
    assert s.pending[i] in s.tokens;
  }

  /** Only a passed check raises the load, and then the rows are still short of the quota. */
  lemma StepLoad(s: Signer, step: Step, token: string)
    requires Invariant(s) && Possible(s, step)
    ensures var t := Next(s, step);
      Short(t, token) || (Load(t, token) <= Load(s, token) && t.tokens.Keys >= s.tokens.Keys
        && (token in t.tokens ==> token in s.tokens && t.tokens[token].maxClaims == s.tokens[token].maxClaims))
  {
    match step {
      case Create(_, _, _) =>
      case Check(other, now) => CheckLoad(s, other, now, token);
      case Abandon(i) => PendingWithout(s.pending, i, token);
      case Insert(i, key) => InsertLoad(s, i, key, token);
    }
  }

  /** With at most `k` requests between check and transaction, a token gets at most its quota and k - 1 more claims. */
  lemma {:induction false} ClaimsBounded(steps: seq<Step>, k: nat, token: string)
    requires IsRun(steps, k)
    ensures token in Run(steps).tokens ==> Load(Run(steps), token) <= Quota(Run(steps).tokens[token].maxClaims) + k - 1
    decreases |steps|
  {
    if steps != [] {
      var s, step := Run(steps[..|steps| - 1]), steps[|steps| - 1];
      EveryRunCountsRows(steps[..|steps| - 1], k);
      ClaimsBounded(steps[..|steps| - 1], k, token);
      StepLoad(s, step, token);
      assert PendingFor(Run(steps).pending, token) <= k;
    }
  }

  /** In rows: those from before it was last created, its quota, and k - 1 more. */
  lemma RowsBounded(steps: seq<Step>, k: nat, token: string)
    requires IsRun(steps, k) && token in Run(steps).tokens
    ensures |RowsFor(Run(steps).claims, token)|
         <= EarlierOf(Run(steps), token) + Quota(Run(steps).tokens[token].maxClaims) + k - 1
  {
    EveryRunCountsRows(steps, k);
    ClaimsBounded(steps, k, token);
    assert TokenOk(Run(steps), token);
  }

  // ----- Reaching the bound -----

  const TOKEN := "t"

  ghost predicate Unclaimed(s: Signer, i: nat) {
    Name(i) !in s.claims
  }

  /** The token has `rows` rows and `waiting` requests past their check; keys numbered from `rows` on are new. */
  ghost predicate Reached(s: Signer, maxClaims: int, waiting: nat, rows: nat) {
    && EarlierOf(s, TOKEN) == 0
    && TOKEN in s.tokens && s.tokens[TOKEN] == Token(0, rows >= Quota(maxClaims), maxClaims, rows)
    && |s.pending| == waiting && (forall i :: 0 <= i < |s.pending| ==> s.pending[i] == TOKEN)
    && |RowsFor(s.claims, TOKEN)| == rows
    && (forall i :: rows <= i ==> Unclaimed(s, i))
  }

  lemma {:induction false} AllPending(pending: seq<string>, token: string)
    ensures PendingFor(pending, token) <= |pending|
    decreases |pending|
  {
    if pending != [] {
      AllPending(pending[..|pending| - 1], token);
    }
  }

  lemma OneStep(steps: seq<Step>, step: Step, k: nat)
    requires IsRun(steps, k) && Possible(Run(steps), step) && |Next(Run(steps), step).pending| <= k
    ensures IsRun(steps + [step], k) && Run(steps + [step]) == Next(Run(steps), step)
  {
    assert (steps + [step])[..|steps|] == steps;
    forall token ensures PendingFor(Next(Run(steps), step).pending, token) <= k {
      AllPending(Next(Run(steps), step).pending, token);
    }
  }

  lemma CheckReaches(s: Signer, maxClaims: int, waiting: nat, rows: nat)
    requires Reached(s, maxClaims, waiting, rows) && rows < Quota(maxClaims)
    ensures Reached(Next(s, Check(TOKEN, 0)), maxClaims, waiting + 1, rows)
  {
    var t := Next(s, Check(TOKEN, 0));
    forall i | rows <= i ensures Unclaimed(t, i) {
      assert Unclaimed(s, i);
    }
  }

  lemma InsertReaches(s: Signer, maxClaims: int, waiting: nat, rows: nat)
    requires Reached(s, maxClaims, waiting, rows) && waiting > 0
    ensures Reached(Next(s, Insert(0, Name(rows))), maxClaims, waiting - 1, rows + 1)
  {
    var t := Next(s, Insert(0, Name(rows)));
    assert Unclaimed(s, rows);
    InsertRows(s.claims, TOKEN, Name(rows), TOKEN);
    forall i | rows + 1 <= i ensures Unclaimed(t, i) {
      assert Unclaimed(s, i) && |Name(i)| != |Name(rows)|;
    }
  }

  /** `n` requests all pass their check before any inserts its row. */
  lemma Burst(steps: seq<Step>, maxClaims: int, n: nat, rows: nat, k: nat) returns (more: seq<Step>)
    requires IsRun(steps, k) && Reached(Run(steps), maxClaims, 0, rows) && rows < Quota(maxClaims) && n <= k
    ensures IsRun(more, k) && Reached(Run(more), maxClaims, 0, rows + n)
  {
    more := steps;
    for i := 0 to n
      invariant IsRun(more, k) && Reached(Run(more), maxClaims, i, rows)
    {
      CheckReaches(Run(more), maxClaims, i, rows);
      OneStep(more, Check(TOKEN, 0), k);
      more := more + [Check(TOKEN, 0)];
    }
    for i := 0 to n
      invariant IsRun(more, k) && Reached(Run(more), maxClaims, n - i, rows + i)
    {
      InsertReaches(Run(more), maxClaims, n - i, rows + i);
      OneStep(more, Insert(0, Name(rows + i)), k);
      more := more + [Insert(0, Name(rows + i))];
    }
  }

  lemma Created(maxClaims: int, k: nat)
    ensures var steps := [Create(TOKEN, 0, maxClaims)]; IsRun(steps, k) && Reached(Run(steps), maxClaims, 0, 0)
  {
    OneStep([], Create(TOKEN, 0, maxClaims), k);
    assert [] + [Create(TOKEN, 0, maxClaims)] == [Create(TOKEN, 0, maxClaims)];
    assert RowsFor(START.claims, TOKEN) == {};
  }

  /** The bound is exact: some run within `k` gives the token its quota and k - 1 more rows. */
  lemma ClaimsBoundReached(maxClaims: int, k: nat) returns (steps: seq<Step>)
    requires k >= 1
    ensures IsRun(steps, k)
    ensures TOKEN in Run(steps).tokens && Run(steps).tokens[TOKEN].maxClaims == maxClaims
    ensures |RowsFor(Run(steps).claims, TOKEN)| == Quota(maxClaims) + k - 1
    ensures EarlierOf(Run(steps), TOKEN) == 0
  {
    Created(maxClaims, k);
    steps := [Create(TOKEN, 0, maxClaims)];
    for n := 0 to Quota(maxClaims) - 1
      invariant IsRun(steps, k) && Reached(Run(steps), maxClaims, 0, n)
    {
      steps := Burst(steps, maxClaims, 1, n, k);
    }
    steps := Burst(steps, maxClaims, k, Quota(maxClaims) - 1, k);
  }

  // ----- When a check passes -----

  /** Step `j` created the token last. */
  ghost predicate CreatedAt(steps: seq<Step>, j: nat, token: string) {
    && j < |steps| && steps[j].Create? && steps[j].token == token
    && forall i :: j < i < |steps| && steps[i].Create? ==> steps[i].token != token
  }

  /** The token has its terms and the count of rows from its last creation. */
  ghost predicate Terms(s: Signer, token: string, create: Step, earlier: nat)
    requires create.Create?
  {
    && token in s.tokens && s.tokens[token].expires == create.expires && s.tokens[token].maxClaims == create.maxClaims
    && EarlierOf(s, token) == earlier
  }

  lemma TermsStay(s: Signer, step: Step, token: string, create: Step, earlier: nat)
    requires create.Create? && Terms(s, token, create, earlier) && (step.Create? ==> step.token != token)
    ensures Terms(Next(s, step), token, create, earlier)
  {
  }

  lemma {:induction false} TermsSinceCreation(steps: seq<Step>, j: nat, token: string)
    requires CreatedAt(steps, j, token)
    ensures Terms(Run(steps), token, steps[j], |RowsFor(Run(steps[..j]).claims, token)|)
    decreases |steps|
  {
    var init := steps[..|steps| - 1];
    if j < |init| {
      assert init[j] == steps[j] && init[..j] == steps[..j];
      forall i | j < i < |init| && init[i].Create? ensures init[i].token != token {
        assert init[i] == steps[i];
      }
      TermsSinceCreation(init, j, token);
      TermsStay(Run(init), steps[|steps| - 1], token, steps[j], |RowsFor(Run(steps[..j]).claims, token)|);
    }
  }

  /**
   In every interleaving a check passes if and only if the token has not expired by the terms of its last creation
   and got fewer rows since than it is meant for, at least one.
   */
  lemma CheckPassesIff(steps: seq<Step>, k: nat, j: nat, token: string, now: int)
    requires IsRun(steps, k) && CreatedAt(steps, j, token)
    ensures var s, before := Run(steps), |RowsFor(Run(steps[..j]).claims, token)|;
      Next(s, Check(token, now)).pending == s.pending + [token] <==>
        && now <= steps[j].expires
        && |RowsFor(s.claims, token)| - before < if steps[j].maxClaims < 1 then 1 else steps[j].maxClaims
  {
    EveryRunCountsRows(steps, k);
    TermsSinceCreation(steps, j, token);
    assert TokenOk(Run(steps), token);
  }

  /** And nothing passes under a name that was never created. */
  lemma {:induction false} UnknownTokenFails(steps: seq<Step>, token: string, now: int)
    requires forall i :: 0 <= i < |steps| && steps[i].Create? ==> steps[i].token != token
    ensures token !in Run(steps).tokens && Next(Run(steps), Check(token, now)) == Run(steps)
    decreases |steps|
  {
    if steps != [] {
      var init := steps[..|steps| - 1];
      forall i | 0 <= i < |init| && init[i].Create? ensures init[i].token != token {
        assert init[i] == steps[i];
      }
      UnknownTokenFails(init, token, now);
    }
  }

  // ----- Requests that end -----

  /** A request that gives up or is carried out is no longer pending, and no other request is affected. */
  lemma EndedRequestIsGone(s: Signer, i: nat, key: string)
    requires i < |s.pending|
    ensures multiset(Next(s, Abandon(i)).pending) == multiset(s.pending) - multiset{s.pending[i]}
    ensures Next(s, Abandon(i)).tokens == s.tokens && Next(s, Abandon(i)).claims == s.claims
    ensures multiset(Next(s, Insert(i, key)).pending) == multiset(s.pending) - multiset{s.pending[i]}
  {
    assert s.pending == s.pending[..i] + [s.pending[i]] + s.pending[i + 1..];
  }
}
