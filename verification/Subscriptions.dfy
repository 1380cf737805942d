/**
 The subscription half of a client connection: the local set of topics, and the
 pending change that the listener still has to pass on to the pub/sub server.
 */
module Subscriptions {
  datatype Change = NoChange | Reset | Change(add: seq<string>, remove: seq<string>)

  // ----- Abstract view -----

  /** The local set with the pending change as two sets; no change is an empty change. */
  datatype Subs = Subs(subscribed: set<string>, reset: bool, add: set<string>, remove: set<string>)

  function Elements(s: seq<string>): (r: set<string>)
    ensures forall x :: x in r <==> x in s
  {
    set x | x in s
  }

  function ViewOf(subscribed: set<string>, change: Change): Subs {
    match change
    case NoChange => Subs(subscribed, false, {}, {})
    case Reset => Subs(subscribed, true, {}, {})
    case Change(add, remove) => Subs(subscribed, false, Elements(add), Elements(remove))
  }

  /** Only ids that are not subscribed yet are recorded; a pending reset records nothing. */
  function Inserted(s: Subs, ids: set<string>): Subs {
    s.(subscribed := s.subscribed + ids,
       add := if s.reset then s.add else s.add + (ids - s.subscribed))
  }

  /** Only ids that are subscribed are recorded. */
  function Removed(s: Subs, ids: set<string>): Subs {
    s.(subscribed := s.subscribed - ids, remove := s.remove + ids * s.subscribed)
  }

  /** Removing a subscribed id while a reset is pending aborts the connection. */
  predicate RemovalPanics(s: Subs, id: string) {
    s.reset && id in s.subscribed
  }

  /** The local set after a flush: additions first, then removals. */
  function Flushed(s: Subs): Subs {
    Subs(if s.reset then s.subscribed else s.subscribed + s.add - s.remove, false, {}, {})
  }

  /** The pub/sub topics after the same flush: removals first, then additions. */
  function TopicsAfter(topics: set<string>, s: Subs): set<string> {
    if s.reset then s.subscribed else topics - s.remove + s.add
  }

  // ----- When a flush leaves both sides equal -----

  /** `s` arose from the flushed set `base` by insertions and removals. */
  ghost predicate Tracks(base: set<string>, s: Subs) {
    && !s.reset
    && forall id :: (
      && (id in s.add && id !in s.remove ==> id !in base && id in s.subscribed)
      && (id in s.remove && id !in s.add ==> id in base && id !in s.subscribed)
      && (id !in s.add && id !in s.remove ==> (id in base <==> id in s.subscribed)))
  }

  lemma InsertionKeepsTrack(base: set<string>, s: Subs, ids: set<string>)
    requires Tracks(base, s)
    ensures Tracks(base, Inserted(s, ids))
  {
    assert forall id :: id in Inserted(s, ids).add <==> id in s.add || (id in ids && id !in s.subscribed);
  }

  lemma RemovalKeepsTrack(base: set<string>, s: Subs, ids: set<string>)
    requires Tracks(base, s)
    ensures Tracks(base, Removed(s, ids))
  {
    assert forall id :: id in Removed(s, ids).remove <==> id in s.remove || (id in ids && id in s.subscribed);
  }

  /** The two orders of applying a change agree exactly when no id is on both sides of it. */
  lemma FlushAgreesIff(base: set<string>, s: Subs)
    requires Tracks(base, s)
    ensures TopicsAfter(base, s) == Flushed(s).subscribed <==> s.add !! s.remove
  {
    if s.add !! s.remove {
      forall id ensures id in TopicsAfter(base, s) <==> id in Flushed(s).subscribed {
        assert !(id in s.add && id in s.remove);
      }
    } else {
      var id :| id in s.add && id in s.remove;
      assert id in TopicsAfter(base, s) && id !in Flushed(s).subscribed;
    }
  }

  // ----- Active servers -----

  /** What the time cache of active servers reports between two flushes. */
  datatype Active = Valid(server: string) | Expired(server: string)

  function MemberTopic(server: string): string {
    server + "u"
  }

  predicate DistinctServers(active: seq<Active>) {
    forall i, j :: 0 <= i < j < |active| ==> active[i].server != active[j].server
  }

  lemma MemberTopicInjective(a: string, b: string)
    requires MemberTopic(a) == MemberTopic(b)
    ensures a == b
  {
    assert a == MemberTopic(a)[..|a|] && b == MemberTopic(b)[..|b|];
    assert |MemberTopic(a)| == |a| + 1 && |MemberTopic(b)| == |b| + 1;
  }

  function ActiveStep(s: Subs, a: Active): Subs {
    match a
    case Valid(k) => Inserted(s, {MemberTopic(k)})
    case Expired(k) => Removed(s, {MemberTopic(k)})
  }

  function AfterActive(s: Subs, active: seq<Active>): Subs
    decreases |active|
  {
    if active == [] then s else ActiveStep(AfterActive(s, active[..|active| - 1]), active[|active| - 1])
  }

  /** Each report touches its own topic only. */
  lemma {:induction false} ActiveLeavesOtherTopics(s: Subs, active: seq<Active>, topic: string)
    requires forall i :: 0 <= i < |active| ==> MemberTopic(active[i].server) != topic
    ensures var t := AfterActive(s, active);
      && t.reset == s.reset
      && (topic in t.subscribed <==> topic in s.subscribed)
      && (topic in t.add <==> topic in s.add)
      && (topic in t.remove <==> topic in s.remove)
    decreases |active|
  {
    if active != [] {
      ActiveLeavesOtherTopics(s, active[..|active| - 1], topic);
    }
  }

  lemma {:induction false} ActiveKeepsReset(s: Subs, active: seq<Active>)
    ensures AfterActive(s, active).reset == s.reset
    decreases |active|
  {
    if active != [] {
      ActiveKeepsReset(s, active[..|active| - 1]);
    }
  }

  lemma {:induction false} ActiveKeepsTrack(base: set<string>, s: Subs, active: seq<Active>)
    requires Tracks(base, s)
    ensures Tracks(base, AfterActive(s, active))
    decreases |active|
  {
    if active != [] {
      var init, last := active[..|active| - 1], active[|active| - 1];
      ActiveKeepsTrack(base, s, init);
      InsertionKeepsTrack(base, AfterActive(s, init), {MemberTopic(last.server)});
      RemovalKeepsTrack(base, AfterActive(s, init), {MemberTopic(last.server)});
    }
  }

  /** A report does not undo what the pending change already does to its topic. */
  predicate Fits(s: Subs, a: Active) {
    match a
    case Valid(k) => MemberTopic(k) !in s.remove
    case Expired(k) => MemberTopic(k) !in s.add
  }

  predicate AllFit(s: Subs, active: seq<Active>) {
    forall i :: 0 <= i < |active| ==> Fits(s, active[i])
  }

  lemma LastTopicUntouched(s: Subs, active: seq<Active>)
    requires active != [] && DistinctServers(active)
    ensures var t := AfterActive(s, active[..|active| - 1]);
      var topic := MemberTopic(active[|active| - 1].server);
      && t.reset == s.reset
      && (topic in t.subscribed <==> topic in s.subscribed)
      && (topic in t.add <==> topic in s.add)
      && (topic in t.remove <==> topic in s.remove)
  {
    var init, last := active[..|active| - 1], active[|active| - 1];
    forall i | 0 <= i < |init| ensures MemberTopic(init[i].server) != MemberTopic(last.server) {
      if MemberTopic(init[i].server) == MemberTopic(last.server) {
        MemberTopicInjective(init[i].server, last.server);
      }
    }
    ActiveLeavesOtherTopics(s, init, MemberTopic(last.server));
  }

  /** Reports leave the change free of contradictions exactly when each one fits it. */
  lemma {:induction false} ActiveDisjointIff(base: set<string>, s: Subs, active: seq<Active>)
    requires Tracks(base, s) && s.add !! s.remove && DistinctServers(active)
    ensures var t := AfterActive(s, active); t.add !! t.remove <==> AllFit(s, active)
    decreases |active|
  {
    if active != [] {
      var init, last := active[..|active| - 1], active[|active| - 1];
      var t := AfterActive(s, init);
      ActiveDisjointIff(base, s, init);
      ActiveKeepsTrack(base, s, init);
      LastTopicUntouched(s, active);
      assert AllFit(s, active) <==> AllFit(s, init) && Fits(s, last);
      StepDisjointIff(base, t, last);
    }
  }

  lemma StepDisjointIff(base: set<string>, t: Subs, a: Active)
    requires Tracks(base, t)
    ensures var u := ActiveStep(t, a);
      u.add !! u.remove <==> t.add !! t.remove && Fits(t, a)
  {
    var topic := MemberTopic(a.server);
    var u := ActiveStep(t, a);
    if t.add !! t.remove {
      assert topic in t.remove ==> topic !in t.subscribed;
      assert topic in t.add ==> topic in t.subscribed;
      if !Fits(t, a) {
        assert topic in u.add && topic in u.remove;
      }
    } else {
      var id :| id in t.add && id in t.remove;
      assert id in u.add && id in u.remove;
    }
  }

  /** Does any report remove a subscribed topic while the reset is pending? */
  predicate ActivePanics(s: Subs, active: seq<Active>) {
    exists i :: 0 <= i < |active| && active[i].Expired?
      && RemovalPanics(AfterActive(s, active[..i]), MemberTopic(active[i].server))
  }

  /** The abort is decided by the state before the reports alone. */
  lemma ActivePanicsIff(s: Subs, active: seq<Active>)
    requires DistinctServers(active)
    ensures ActivePanics(s, active) <==>
      exists i :: 0 <= i < |active| && active[i].Expired? && RemovalPanics(s, MemberTopic(active[i].server))
  {
    forall i | 0 <= i < |active|
      ensures RemovalPanics(AfterActive(s, active[..i]), MemberTopic(active[i].server))
         <==> RemovalPanics(s, MemberTopic(active[i].server))
    {
      var upTo := active[..i + 1];
      assert upTo[..i] == active[..i];
      LastTopicUntouched(s, upTo);
    }
  }
}
