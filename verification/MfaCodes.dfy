/** One-time codes sent by mail: the newest unused code of a user is compared, a few times at most. */
module MfaCodes {
  import opened Models

  const CODE_TTL := 600
  const MAX_ATTEMPTS := 5

  /** A row of the table; its id is its position. */
  datatype Row = Row(user: string, code: string, expiresAt: int, attempts: nat, used: bool)

  datatype Outcome = Accepted | NoPendingCode | CodeExpired | TooManyAttempts | InvalidCode

  function Stored(rows: seq<Row>, user: string, code: string, now: int): seq<Row> {
    rows + [Row(user, code, now + CODE_TTL, 0, false)]
  }

  /** The newest unused row of the user. */
  function Newest(rows: seq<Row>, user: string): Option<nat> {
    if rows == [] then None
    else if rows[|rows| - 1].user == user && !rows[|rows| - 1].used then Some(|rows| - 1)
    else Newest(rows[..|rows| - 1], user)
  }

  lemma {:induction false} NewestIsLast(rows: seq<Row>, user: string)
    ensures match Newest(rows, user)
      case None => forall i :: 0 <= i < |rows| ==> rows[i].user != user || rows[i].used
      case Some(id) =>
        && id < |rows| && rows[id].user == user && !rows[id].used
        && forall i :: id < i < |rows| ==> rows[i].user != user || rows[i].used
    decreases |rows|
  {
    if rows != [] && !(rows[|rows| - 1].user == user && !rows[|rows| - 1].used) {
      NewestIsLast(rows[..|rows| - 1], user);
    }
  }

  /** The code is compared only if it is neither expired nor out of attempts. */
  predicate Compared(row: Row, now: int) {
    now <= row.expiresAt && row.attempts < MAX_ATTEMPTS
  }

  function VerifiedRow(row: Row, guess: string, now: int): Row {
    if !Compared(row, now) then row.(used := true)
    else row.(attempts := row.attempts + 1, used := row.used || guess == row.code)
  }

  function Verified(rows: seq<Row>, user: string, guess: string, now: int): seq<Row> {
    match Newest(rows, user)
    case None => rows
    case Some(id) => if id < |rows| then rows[id := VerifiedRow(rows[id], guess, now)] else rows
  }

  class CodeTable {
    var rows: seq<Row>

    constructor ()
      ensures rows == []
    {
      rows := [];
    }

    /** From now on and for ten minutes it is this code that the user's guesses are compared with. */
    method StoreMfaCode(user: string, code: string, now: int)
      modifies this
      ensures rows == Stored(old(rows), user, code, now)
      ensures Newest(rows, user) == Some(|old(rows)|) && rows[|old(rows)|].code == code
      ensures forall t :: Compared(rows[|old(rows)|], t) <==> t <= now + CODE_TTL
      ensures forall other :: other != user ==> Newest(rows, other) == Newest(old(rows), other)
    {
      rows := rows + [Row(user, code, now + CODE_TTL, 0, false)];
      assert rows[..|rows| - 1] == old(rows);
    }

    /** `guess` has had its surrounding blanks removed. */
    method VerifyMfaCode(user: string, guess: string, now: int) returns (outcome: Outcome)
      modifies this
      ensures rows == Verified(old(rows), user, guess, now)
      ensures outcome == NoPendingCode <==> Newest(old(rows), user).None?
      ensures outcome == Accepted <==>
        exists id :: 0 <= id < |old(rows)| && Newest(old(rows), user) == Some(id)
          && Compared(old(rows)[id], now) && old(rows)[id].code == guess
    {
      NewestIsLast(rows, user);
      var found := Newest(rows, user);
      if found.None? {
        return NoPendingCode;
      }
      var id := found.value;
      if now > rows[id].expiresAt {
        rows := rows[id := rows[id].(used := true)];
        return CodeExpired;
      }
      if rows[id].attempts >= MAX_ATTEMPTS {
        rows := rows[id := rows[id].(used := true)];
        return TooManyAttempts;
      }
      var code := rows[id].code;
      rows := rows[id := rows[id].(attempts := rows[id].attempts + 1)];
      if guess == code {
        rows := rows[id := rows[id].(used := true)];
        return Accepted;
      }
      return InvalidCode;
    }
  }

  // ----- Every run -----

  /** A comparison that took place. */
  datatype Trial = Trial(id: nat, at: int, accepted: bool)

  datatype World = World(rows: seq<Row>, trials: seq<Trial>)

  datatype Step = Store(user: string, code: string, now: int) | Verify(user: string, guess: string, now: int)

  function Trials(rows: seq<Row>, user: string, guess: string, now: int): seq<Trial> {
    match Newest(rows, user)
    case None => []
    case Some(id) =>
      if id < |rows| && Compared(rows[id], now) then [Trial(id, now, guess == rows[id].code)] else []
  }

  function Next(w: World, step: Step): World {
    match step
    case Store(user, code, now) => w.(rows := Stored(w.rows, user, code, now))
    case Verify(user, guess, now) =>
      World(Verified(w.rows, user, guess, now), w.trials + Trials(w.rows, user, guess, now))
  }

  function Run(steps: seq<Step>): World
    decreases |steps|
  {
    if steps == [] then World([], []) else Next(Run(steps[..|steps| - 1]), steps[|steps| - 1])
  }

  ghost function TrialCount(trials: seq<Trial>, id: nat): nat {
    if trials == [] then 0
    else TrialCount(trials[..|trials| - 1], id) + if trials[|trials| - 1].id == id then 1 else 0
  }

  ghost function AcceptCount(trials: seq<Trial>, id: nat): nat {
    if trials == [] then 0
    else AcceptCount(trials[..|trials| - 1], id)
         + if trials[|trials| - 1].id == id && trials[|trials| - 1].accepted then 1 else 0
  }

  ghost predicate RowOk(w: World, id: nat)
    requires id < |w.rows|
  {
    && w.rows[id].attempts == TrialCount(w.trials, id) <= MAX_ATTEMPTS
    && AcceptCount(w.trials, id) <= if w.rows[id].used then 1 else 0
  }

  ghost predicate TrialOk(w: World, t: Trial) {
    t.id < |w.rows| && t.at <= w.rows[t.id].expiresAt
  }

  ghost predicate Invariant(w: World) {
    && (forall id :: 0 <= id < |w.rows| ==> RowOk(w, id))
    && (forall i :: 0 <= i < |w.trials| ==> TrialOk(w, w.trials[i]))
  }

  lemma {:induction false} NoTrials(trials: seq<Trial>, id: nat)
    requires forall i :: 0 <= i < |trials| ==> trials[i].id < id
    ensures TrialCount(trials, id) == 0 && AcceptCount(trials, id) == 0
    decreases |trials|
  {
    if trials != [] {
      NoTrials(trials[..|trials| - 1], id);
    }
  }

  lemma OneTrial(trials: seq<Trial>, t: Trial, id: nat)
    ensures TrialCount(trials + [t], id) == TrialCount(trials, id) + if t.id == id then 1 else 0
    ensures AcceptCount(trials + [t], id) == AcceptCount(trials, id) + if t.id == id && t.accepted then 1 else 0
  {
    assert (trials + [t])[..|trials|] == trials;
  }

  lemma StoreKeeps(w: World, user: string, code: string, now: int)
    requires Invariant(w)
    ensures Invariant(Next(w, Store(user, code, now)))
  {
    var v := Next(w, Store(user, code, now));
    forall i | 0 <= i < |w.trials| ensures w.trials[i].id < |w.rows| {
      assert TrialOk(w, w.trials[i]);
    }
    NoTrials(w.trials, |w.rows|);
    forall id | 0 <= id < |v.rows| ensures RowOk(v, id) {
      if id < |w.rows| {
        assert RowOk(w, id);
      }
    }
    forall i | 0 <= i < |v.trials| ensures TrialOk(v, v.trials[i]) {
      assert TrialOk(w, w.trials[i]);
    }
  }

  lemma VerifyKeeps(w: World, user: string, guess: string, now: int)
    requires Invariant(w)
    ensures Invariant(Next(w, Verify(user, guess, now)))
  {
    NewestIsLast(w.rows, user);
    var v := Next(w, Verify(user, guess, now));
    var newest := Newest(w.rows, user);
    if newest.Some? {
      var it := newest.value;
      var tried := Compared(w.rows[it], now);
      var t := Trial(it, now, guess == w.rows[it].code);
      assert v.trials == if tried then w.trials + [t] else w.trials;
      forall id | 0 <= id < |v.rows| ensures RowOk(v, id) {
        assert RowOk(w, id);
        OneTrial(w.trials, t, id);
      }
      forall i | 0 <= i < |v.trials| ensures TrialOk(v, v.trials[i]) {
        if i < |w.trials| {
          assert TrialOk(w, w.trials[i]);
        }
      }
    } else {
      assert v == w;
    }
  }

  /** In every run each code is compared at most five times, accepted at most once, and never after it expired. */
  lemma {:induction false} EveryRunLimitsTrials(steps: seq<Step>)
    ensures Invariant(Run(steps))
    decreases |steps|
  {
    if steps != [] {
      EveryRunLimitsTrials(steps[..|steps| - 1]);
      match steps[|steps| - 1] {
        case Store(user, code, now) => StoreKeeps(Run(steps[..|steps| - 1]), user, code, now);
        case Verify(user, guess, now) => VerifyKeeps(Run(steps[..|steps| - 1]), user, guess, now);
      }
    }
  }

  // ----- Older codes -----

  /** Once the newest unused code is used, the newest one before it takes its place. */
  lemma {:induction false} RetiringUncovers(rows: seq<Row>, user: string, n: nat, row: Row)
    requires Newest(rows, user) == Some(n) && n < |rows| && row.used
    ensures Newest(rows[n := row], user) == Newest(rows[..n], user)
    decreases |rows|
  {
    var init := rows[..|rows| - 1];
    if n == |rows| - 1 {
      assert rows[n := row][..n] == rows[..n];
    } else {
      NewestIsLast(rows, user);
      assert Newest(init, user) == Some(n);
      RetiringUncovers(init, user, n, row);
      assert rows[n := row][..|rows| - 1] == init[n := row] && init[..n] == rows[..n];
    }
  }

  /**
   After the newest code was accepted, a guess at any later or earlier time is accepted against an
   older row if and only if that row is the newest unused one before it, has not expired, was tried
   fewer than five times and matches.
   */
  lemma OlderCodeAcceptedIff(rows: seq<Row>, user: string, n: nat, now: int, older: nat, guess: string, later: int)
    requires Newest(rows, user) == Some(n) && n < |rows| && Compared(rows[n], now)
    ensures var one := Verified(rows, user, rows[n].code, now);
      Trials(one, user, guess, later) == [Trial(older, later, true)] <==>
        older < n && Newest(rows[..n], user) == Some(older) && Compared(rows[older], later) && rows[older].code == guess
  {
    var one := Verified(rows, user, rows[n].code, now);
    RetiringUncovers(rows, user, n, VerifiedRow(rows[n], rows[n].code, now));
    NewestIsLast(rows[..n], user);
  }

  /** So of two codes sent one after the other both are accepted, newest first, for as long as each lives. */
  lemma BothCodesAccepted(
    rows: seq<Row>, user: string, older: string, sent: int, newer: string, resent: int, now: int, later: int)
    requires now <= resent + 600
    ensures var two := Stored(Stored(rows, user, older, sent), user, newer, resent);
      var one := Verified(two, user, newer, now);
      && Trials(two, user, newer, now) == [Trial(|rows| + 1, now, true)]
      && (Trials(one, user, older, later) == [Trial(|rows|, later, true)] <==> later <= sent + 600)
  {
    var first := Stored(rows, user, older, sent);
    var two := Stored(first, user, newer, resent);
    assert two[..|rows| + 1] == first;
    OlderCodeAcceptedIff(two, user, |rows| + 1, now, |rows|, older, later);
  }

  // ----- Retired codes -----

  /**
   A guess leaves the newest code in place if and only if that had neither expired nor been tried five times, and
   the guess does not match; otherwise that code is retired and the newest before it follows.
   */
  lemma GuessRetiresIff(rows: seq<Row>, user: string, n: nat, guess: string, now: int)
    requires Newest(rows, user) == Some(n) && n < |rows|
    ensures var after, stays := Verified(rows, user, guess, now),
                                now <= rows[n].expiresAt && rows[n].attempts < 5 && guess != rows[n].code;
      && Newest(after, user) == (if stays then Some(n) else Newest(rows[..n], user))
      && |after| == |rows| && (stays ==> after[n] == rows[n].(attempts := rows[n].attempts + 1))
      && forall i :: 0 <= i < |rows| && i != n ==> after[i] == rows[i]
  {
    NewestIsLast(rows, user);
    var row := VerifiedRow(rows[n], guess, now);
    if row.used {
      RetiringUncovers(rows, user, n, row);
    } else {
      UnusedStaysNewest(rows, user, n, row);
    }
  }

  lemma {:induction false} UnusedStaysNewest(rows: seq<Row>, user: string, n: nat, row: Row)
    requires Newest(rows, user) == Some(n) && n < |rows| && !row.used && row.user == user
    ensures Newest(rows[n := row], user) == Some(n)
    decreases |rows|
  {
    if n < |rows| - 1 {
      NewestIsLast(rows, user);
      UnusedStaysNewest(rows[..|rows| - 1], user, n, row);
      assert rows[n := row][..|rows| - 1] == rows[..|rows| - 1][n := row];
    }
  }

  // ----- Sending and guessing -----

  lemma RunOneMore(steps: seq<Step>, step: Step)
    ensures Run(steps + [step]) == Next(Run(steps), step)
  {
    assert (steps + [step])[..|steps|] == steps;
  }

  /**
   After any run, a code that is sent and then guessed is accepted exactly within ten minutes, whatever codes were
   sent before; any other guess in that time is compared and refused.
   */
  lemma SentCodeIsAccepted(steps: seq<Step>, user: string, code: string, sent: int, guess: string, now: int)
    ensures var w := Run(steps + [Store(user, code, sent)]);
      var v := Run(steps + [Store(user, code, sent)] + [Verify(user, guess, now)]);
      v.trials == w.trials + if now <= sent + 600 then [Trial(|Run(steps).rows|, now, guess == code)] else []
  {
    RunOneMore(steps, Store(user, code, sent));
    RunOneMore(steps + [Store(user, code, sent)], Verify(user, guess, now));
  }
}
