/**
 Joins, leaves and deletions take several round trips: the member sets change in
 one, the set of active channels in a later one. Other calls may run in between.
 */
module VoiceInterleaving {
  import opened Models
  import opened VoiceModel

  /** A leave that has changed the sets; `counted` once it has found no member left. */
  datatype Departure = Departure(channel: string, counted: bool)

  /** `arrivals` are the channels of joins that have not marked them active yet. */
  datatype System = System(v: Voice, departures: multiset<Departure>, arrivals: multiset<string>)

  const QUIET := System(SILENCE, multiset{}, multiset{})

  datatype FineStep =
    | Enter(channel: string, server: Option<string>, user: string, at: int)
    | Announce(channel: string)
    | Unlink(channel: string, server: Option<string>, user: string)
    | CountMembers(channel: string)
    | LateRemoval(channel: string)
    | Clear(channel: string, server: Option<string>, users: set<string>)
    | Whole(step: Step)

  function Activated(v: Voice, channel: string): Voice {
    v.(active := v.active + {channel})
  }

  function Deactivated(v: Voice, channel: string): Voice {
    v.(active := v.active - {channel})
  }

  /** A deletion clears for the users it listed, and removes the channel from the active set later. */
  function FineNext(sys: System, step: FineStep): System {
    match step
    case Enter(channel, server, user, at) =>
      sys.(v := Joined(sys.v, channel, server, user, at).(active := sys.v.active),
           arrivals := sys.arrivals + multiset{channel})
    case Announce(channel) =>
      sys.(v := Activated(sys.v, channel), arrivals := sys.arrivals - multiset{channel})
    case Unlink(channel, server, user) =>
      sys.(v := Unlinked(sys.v, channel, server, user),
           departures := sys.departures + multiset{Departure(channel, false)})
    case CountMembers(channel) =>
      var rest := sys.departures - multiset{Departure(channel, false)};
      sys.(departures := if MembersOf(sys.v, channel) == {} then rest + multiset{Departure(channel, true)} else rest)
    case LateRemoval(channel) =>
      sys.(v := Deactivated(sys.v, channel), departures := sys.departures - multiset{Departure(channel, true)})
    case Clear(channel, server, users) =>
      sys.(v := Cleared(sys.v, channel, server, users).(active := sys.v.active),
           departures := sys.departures + multiset{Departure(channel, true)})
    case Whole(s) => sys.(v := Next(sys.v, s))
  }

  ghost predicate FinePossible(sys: System, step: FineStep) {
    match step
    case Announce(channel) => channel in sys.arrivals
    case CountMembers(channel) => Departure(channel, false) in sys.departures
    case LateRemoval(channel) => Departure(channel, true) in sys.departures
    case Whole(s) => Possible(sys.v, s)
    case _ => true
  }

  predicate Leaving(departures: multiset<Departure>, channel: string) {
    Departure(channel, false) in departures || Departure(channel, true) in departures
  }

  // ----- The active set -----

  /** A channel with members is active or about to be; an active channel has members or is about to be removed. */
  ghost predicate Sound(sys: System) {
    forall c :: SoundAt(sys.v, Leaving(sys.departures, c), c in sys.arrivals, c)
  }

  predicate SoundAt(v: Voice, leaving: bool, arriving: bool, c: string) {
    && (MembersOf(v, c) != {} ==> c in v.active || arriving)
    && (c in v.active ==> MembersOf(v, c) != {} || leaving)
  }

  /** A late removal from a channel that has members again, or a late announcement of one that has none any more. */
  ghost predicate Misses(sys: System, step: FineStep) {
    match step
    case LateRemoval(c) => MembersOf(sys.v, c) != {} && c !in sys.arrivals
    case Announce(c) => MembersOf(sys.v, c) == {} && !Leaving(sys.departures, c)
    case _ => false
  }

  lemma LeaveKeepsSound(
    v: Voice, channel: string, server: Option<string>, user: string, leaving: bool, arriving: bool, c: string)
    requires SoundAt(v, leaving, arriving, c)
    ensures SoundAt(Left(v, channel, server, user), leaving, arriving, c)
  {
    if c == channel {
      assert MembersOf(Left(v, channel, server, user), c) == MembersOf(v, c) - {user};
    }
  }

  lemma {:induction false} LeaveAllKeepsSound(
    v: Voice, listed: seq<string>, serverOf: string -> Option<string>,
    user: string, leaving: bool, arriving: bool, c: string)
    requires SoundAt(v, leaving, arriving, c)
    ensures SoundAt(LeftAll(v, listed, serverOf, user), leaving, arriving, c)
    decreases |listed|
  {
    if listed != [] {
      var init, channel := listed[..|listed| - 1], listed[|listed| - 1];
      LeaveAllKeepsSound(v, init, serverOf, user, leaving, arriving, c);
      LeaveKeepsSound(LeftAll(v, init, serverOf, user), channel, serverOf(channel), user, leaving, arriving, c);
    }
  }

  lemma {:induction false} HealKeepsSound(
    v: Voice, channel: string, server: Option<string>, listed: seq<string>, leaving: bool, arriving: bool, c: string)
    requires SoundAt(v, leaving, arriving, c)
    ensures SoundAt(Healed(v, channel, server, listed), leaving, arriving, c)
    decreases |listed|
  {
    if listed != [] {
      var init := listed[..|listed| - 1];
      HealKeepsSound(v, channel, server, init, leaving, arriving, c);
      LeaveKeepsSound(Healed(v, channel, server, init), channel, server, listed[|listed| - 1], leaving, arriving, c);
    }
  }

  lemma WholeKeepsSound(v: Voice, step: Step, leaving: bool, arriving: bool, c: string)
    requires SoundAt(v, leaving, arriving, c)
    ensures SoundAt(Next(v, step), leaving, arriving, c)
  {
    match step {
      case Join(channel, server, user, at) =>
      case Leave(channel, server, user) => LeaveKeepsSound(v, channel, server, user, leaving, arriving, c);
      case Update(_, _) =>
      case DeleteChannel(_, _) =>
      case Disconnect(user, listed, serverOf) => LeaveAllKeepsSound(v, listed, serverOf, user, leaving, arriving, c);
      case Read(channel, server, listed) => HealKeepsSound(v, channel, server, listed, leaving, arriving, c);
    }
  }

  function ChannelOf(step: FineStep): string
    requires !step.Whole?
  {
    step.channel
  }

  lemma OtherElementsKept<T>(m: multiset<T>, x: T, y: T)
    requires x != y
    ensures x in m + multiset{y} <==> x in m
    ensures x in m - multiset{y} <==> x in m
  {
  }

  lemma OtherDeparturesKept(m: multiset<Departure>, channel: string, counted: bool, c: string)
    requires c != channel
    ensures Leaving(m + multiset{Departure(channel, counted)}, c) <==> Leaving(m, c)
    ensures Leaving(m - multiset{Departure(channel, counted)}, c) <==> Leaving(m, c)
  {
    OtherElementsKept(m, Departure(c, false), Departure(channel, counted));
    OtherElementsKept(m, Departure(c, true), Departure(channel, counted));
  }

  lemma OtherSetsKept(sys: System, step: FineStep, c: string)
    requires !step.Whole? && c != ChannelOf(step)
    ensures MembersOf(FineNext(sys, step).v, c) == MembersOf(sys.v, c)
    ensures c in FineNext(sys, step).v.active <==> c in sys.v.active
  {
  }

  /** A fine step changes nothing about other channels. */
  lemma OtherChannelsKept(sys: System, step: FineStep, c: string)
    requires !step.Whole? && c != ChannelOf(step)
    ensures var t := FineNext(sys, step);
      && MembersOf(t.v, c) == MembersOf(sys.v, c) && (c in t.v.active <==> c in sys.v.active)
      && (Leaving(t.departures, c) <==> Leaving(sys.departures, c)) && (c in t.arrivals <==> c in sys.arrivals)
  {
    OtherSetsKept(sys, step, c);
    var d := ChannelOf(step);
    OtherElementsKept(sys.arrivals, c, d);
    OtherDeparturesKept(sys.departures, d, false, c);
    OtherDeparturesKept(sys.departures, d, true, c);
    OtherDeparturesKept(sys.departures - multiset{Departure(d, false)}, d, true, c);
  }

  lemma OwnChannelIff(sys: System, step: FineStep)
    requires !step.Whole? && FinePossible(sys, step)
    requires var c := ChannelOf(step); SoundAt(sys.v, Leaving(sys.departures, c), c in sys.arrivals, c)
    ensures var t, c := FineNext(sys, step), ChannelOf(step);
      SoundAt(t.v, Leaving(t.departures, c), c in t.arrivals, c) <==> !Misses(sys, step)
  {
    var t, c := FineNext(sys, step), ChannelOf(step);
    match step {
      case Enter(_, _, user, _) => assert user in MembersOf(t.v, c);
      case Announce(_) => assert MembersOf(t.v, c) == MembersOf(sys.v, c);
      case Unlink(_, _, user) => assert MembersOf(t.v, c) == MembersOf(sys.v, c) - {user};
      case CountMembers(_) =>
      case LateRemoval(_) =>
      case Clear(_, _, _) => assert MembersOf(t.v, c) == {};
    }
  }

  /** A step keeps the active set sound exactly if it is neither. */
  lemma SoundKeptIff(sys: System, step: FineStep)
    requires Sound(sys) && FinePossible(sys, step)
    ensures Sound(FineNext(sys, step)) <==> !Misses(sys, step)
  {
    var t := FineNext(sys, step);
    if step.Whole? {
      forall c ensures SoundAt(t.v, Leaving(t.departures, c), c in t.arrivals, c) {
        WholeKeepsSound(sys.v, step.step, Leaving(sys.departures, c), c in sys.arrivals, c);
      }
    } else {
      OwnChannelIff(sys, step);
      forall c | c != ChannelOf(step) ensures SoundAt(t.v, Leaving(t.departures, c), c in t.arrivals, c) {
        OtherChannelsKept(sys, step, c);
        assert SoundAt(sys.v, Leaving(sys.departures, c), c in sys.arrivals, c);
      }
    }
  }

  // ----- The mirrored sets -----

  /** A deletion that clears a channel somebody joined after its members were listed. */
  ghost predicate Forgets(sys: System, step: FineStep) {
    step.Clear? && !(MembersOf(sys.v, step.channel) <= step.users)
  }

  lemma SameSets(v: Voice, w: Voice)
    requires v.members == w.members && v.channels == w.channels
    ensures Mirrored(v) <==> Mirrored(w)
  {
    forall c ensures MembersOf(v, c) == MembersOf(w, c) {
    }
    forall u ensures ChannelsOf(v, u) == ChannelsOf(w, u) {
    }
  }

  lemma JoinKeepsMirror(v: Voice, channel: string, server: Option<string>, user: string, at: int)
    requires Mirrored(v)
    ensures Mirrored(Joined(v, channel, server, user, at))
  {
    var w := Joined(v, channel, server, user, at);
    forall u, c ensures u in MembersOf(w, c) <==> c in ChannelsOf(w, u) {
      assert u in MembersOf(v, c) <==> c in ChannelsOf(v, u);
    }
  }

  lemma UnlinkKeepsMirror(v: Voice, channel: string, server: Option<string>, user: string)
    requires Mirrored(v)
    ensures Mirrored(Unlinked(v, channel, server, user)) && Mirrored(Left(v, channel, server, user))
  {
    var w := Unlinked(v, channel, server, user);
    forall u, c ensures u in MembersOf(w, c) <==> c in ChannelsOf(w, u) {
      assert u in MembersOf(v, c) <==> c in ChannelsOf(v, u);
    }
    SameSets(w, Left(v, channel, server, user));
  }

  lemma {:induction false} LeaveAllKeepsMirror(
    v: Voice, listed: seq<string>, serverOf: string -> Option<string>, user: string)
    requires Mirrored(v)
    ensures Mirrored(LeftAll(v, listed, serverOf, user))
    decreases |listed|
  {
    if listed != [] {
      var init, channel := listed[..|listed| - 1], listed[|listed| - 1];
      LeaveAllKeepsMirror(v, init, serverOf, user);
      UnlinkKeepsMirror(LeftAll(v, init, serverOf, user), channel, serverOf(channel), user);
    }
  }

  lemma {:induction false} HealKeepsMirror(v: Voice, channel: string, server: Option<string>, listed: seq<string>)
    requires Mirrored(v)
    ensures Mirrored(Healed(v, channel, server, listed))
    decreases |listed|
  {
    if listed != [] {
      HealKeepsMirror(v, channel, server, listed[..|listed| - 1]);
      UnlinkKeepsMirror(Healed(v, channel, server, listed[..|listed| - 1]), channel, server, listed[|listed| - 1]);
    }
  }

  lemma WholeKeepsMirror(v: Voice, step: Step)
    requires Mirrored(v)
    ensures Mirrored(Next(v, step))
  {
    match step {
      case Join(channel, server, user, at) => JoinKeepsMirror(v, channel, server, user, at);
      case Leave(channel, server, user) => UnlinkKeepsMirror(v, channel, server, user);
      case Update(slot, patch) => SameSets(v, Updated(v, slot, patch));
      case DeleteChannel(channel, server) => ClearKeepsMirrorIff(v, channel, server, MembersOf(v, channel));
      case Disconnect(user, listed, serverOf) => LeaveAllKeepsMirror(v, listed, serverOf, user);
      case Read(channel, server, listed) => HealKeepsMirror(v, channel, server, listed);
    }
  }

  /** A step keeps the two kinds of sets mirrored exactly if it is not such a deletion. */
  lemma MirrorKeptIff(sys: System, step: FineStep)
    requires Mirrored(sys.v)
    ensures Mirrored(FineNext(sys, step).v) <==> !Forgets(sys, step)
  {
    var t := FineNext(sys, step);
    match step {
      case Enter(channel, server, user, at) =>
        JoinKeepsMirror(sys.v, channel, server, user, at);
        SameSets(t.v, Joined(sys.v, channel, server, user, at));
      case Announce(_) => SameSets(t.v, sys.v);
      case Unlink(channel, server, user) => UnlinkKeepsMirror(sys.v, channel, server, user);
      case CountMembers(_) =>
      case LateRemoval(_) => SameSets(t.v, sys.v);
      case Clear(channel, server, users) =>
        ClearKeepsMirrorIff(sys.v, channel, server, users);
        SameSets(t.v, Cleared(sys.v, channel, server, users));
      case Whole(s) => WholeKeepsMirror(sys.v, s);
    }
  }

  // ----- Runs -----

  function FineRun(steps: seq<FineStep>): System
    decreases |steps|
  {
    if steps == [] then QUIET else FineNext(FineRun(steps[..|steps| - 1]), steps[|steps| - 1])
  }

  ghost predicate IsFineRun(steps: seq<FineStep>)
    decreases |steps|
  {
    steps == [] ||
    (IsFineRun(steps[..|steps| - 1]) && FinePossible(FineRun(steps[..|steps| - 1]), steps[|steps| - 1]))
  }

  ghost predicate SoundThroughout(steps: seq<FineStep>)
    decreases |steps|
  {
    Sound(FineRun(steps)) && (steps != [] ==> SoundThroughout(steps[..|steps| - 1]))
  }

  ghost predicate NothingMissed(steps: seq<FineStep>)
    decreases |steps|
  {
    steps == [] ||
    (NothingMissed(steps[..|steps| - 1]) && !Misses(FineRun(steps[..|steps| - 1]), steps[|steps| - 1]))
  }

  ghost predicate MirroredThroughout(steps: seq<FineStep>)
    decreases |steps|
  {
    Mirrored(FineRun(steps).v) && (steps != [] ==> MirroredThroughout(steps[..|steps| - 1]))
  }

  ghost predicate NothingForgotten(steps: seq<FineStep>)
    decreases |steps|
  {
    steps == [] ||
    (NothingForgotten(steps[..|steps| - 1]) && !Forgets(FineRun(steps[..|steps| - 1]), steps[|steps| - 1]))
  }

  /**
   In every interleaving the active set is sound throughout if and only if no removal or announcement comes
   too late.
   */
  lemma {:induction false} ActiveSoundIff(steps: seq<FineStep>)
    requires IsFineRun(steps)
    ensures SoundThroughout(steps) <==> NothingMissed(steps)
    decreases |steps|
  {
    if steps != [] {
      var init := steps[..|steps| - 1];
      ActiveSoundIff(init);
      if SoundThroughout(init) {
        SoundKeptIff(FineRun(init), steps[|steps| - 1]);
      }
    }
  }

  /** In every interleaving the sets mirror each other throughout if and only if no deletion overlooks a member. */
  lemma {:induction false} MirrorIff(steps: seq<FineStep>)
    ensures MirroredThroughout(steps) <==> NothingForgotten(steps)
    decreases |steps|
  {
    if steps != [] {
      var init := steps[..|steps| - 1];
      MirrorIff(init);
      if MirroredThroughout(init) {
        MirrorKeptIff(FineRun(init), steps[|steps| - 1]);
      }
    }
  }

  /** With no call under way, sound means that the active channels are exactly those with members. */
  lemma AtRest(sys: System)
    requires sys.departures == multiset{} && sys.arrivals == multiset{}
    ensures Sound(sys) <==> ActiveMatches(sys.v)
  {
    forall c ensures !Leaving(sys.departures, c) && c !in sys.arrivals {
    }
    if ActiveMatches(sys.v) {
      forall c ensures SoundAt(sys.v, Leaving(sys.departures, c), c in sys.arrivals, c) {
        assert c in sys.v.active <==> MembersOf(sys.v, c) != {};
      }
    }
    if Sound(sys) {
      forall c ensures c in sys.v.active <==> MembersOf(sys.v, c) != {} {
        assert SoundAt(sys.v, Leaving(sys.departures, c), c in sys.arrivals, c);
      }
    }
  }

  /** Such a late removal: somebody joins after the last member's leave has counted. */
  lemma JoinDuringLeaveHidesChannel(sys: System, channel: string, leaver: string, joiner: string, at: int)
    requires MembersOf(sys.v, channel) == {leaver} && channel !in sys.arrivals
    ensures var unlinked := FineNext(sys, Unlink(channel, None, leaver));
      var counted := FineNext(unlinked, CountMembers(channel));
      var joined := FineNext(counted, Whole(Join(channel, None, joiner, at)));
      FinePossible(joined, LateRemoval(channel)) && Misses(joined, LateRemoval(channel))
  {
    var unlinked := FineNext(sys, Unlink(channel, None, leaver));
    assert MembersOf(unlinked.v, channel) == {};
    var counted := FineNext(unlinked, CountMembers(channel));
    var joined := FineNext(counted, Whole(Join(channel, None, joiner, at)));
    assert joiner in MembersOf(joined.v, channel);
  }

  // ----- Calls that are not interrupted -----

  lemma Cancels<T>(m: multiset<T>, x: T)
    ensures m + multiset{x} - multiset{x} == m
  {
  }

  /** A join whose round trips follow each other is the whole join, and leaves nothing under way. */
  lemma SerialJoinIsWhole(sys: System, channel: string, server: Option<string>, user: string, at: int)
    ensures FineNext(FineNext(sys, Enter(channel, server, user, at)), Announce(channel))
         == FineNext(sys, Whole(Join(channel, server, user, at)))
  {
    Cancels(sys.arrivals, channel);
  }

  lemma CountedLeave(sys: System, channel: string, server: Option<string>, user: string)
    ensures var unlinked := Unlinked(sys.v, channel, server, user);
      FineNext(FineNext(sys, Unlink(channel, server, user)), CountMembers(channel)) ==
        System(unlinked, if MembersOf(unlinked, channel) == {} then sys.departures + multiset{Departure(channel, true)}
                         else sys.departures, sys.arrivals)
  {
    Cancels(sys.departures, Departure(channel, false));
  }

  /** A leave counts, and removes the channel later exactly if nobody is left. */
  lemma SerialLeaveIsWhole(sys: System, channel: string, server: Option<string>, user: string)
    ensures var counted := FineNext(FineNext(sys, Unlink(channel, server, user)), CountMembers(channel));
      var whole := FineNext(sys, Whole(Leave(channel, server, user)));
      if MembersOf(counted.v, channel) == {}
      then FinePossible(counted, LateRemoval(channel)) && FineNext(counted, LateRemoval(channel)) == whole
      else counted == whole
  {
    CountedLeave(sys, channel, server, user);
    Cancels(sys.departures, Departure(channel, true));
  }

  lemma ClearedInTwo(v: Voice, channel: string, server: Option<string>, users: set<string>)
    ensures Deactivated(Cleared(v, channel, server, users).(active := v.active), channel)
         == Cleared(v, channel, server, users)
  {
  }

  lemma ClearedLater(sys: System, channel: string, server: Option<string>, users: set<string>)
    ensures FineNext(FineNext(sys, Clear(channel, server, users)), LateRemoval(channel))
         == System(Cleared(sys.v, channel, server, users), sys.departures, sys.arrivals)
  {
    ClearedInTwo(sys.v, channel, server, users);
    Cancels(sys.departures, Departure(channel, true));
  }

  /** A deletion that lists all members is the whole deletion. */
  lemma SerialDeletionIsWhole(sys: System, channel: string, server: Option<string>)
    requires MembersOf(sys.v, channel) != {}
    ensures FineNext(FineNext(sys, Clear(channel, server, MembersOf(sys.v, channel))), LateRemoval(channel))
         == FineNext(sys, Whole(DeleteChannel(channel, server)))
  {
    ClearedLater(sys, channel, server, MembersOf(sys.v, channel));
  }

  lemma FineRunOneMore(steps: seq<FineStep>, step: FineStep)
    ensures FineRun(steps + [step]) == FineNext(FineRun(steps), step)
    ensures IsFineRun(steps + [step]) <==> IsFineRun(steps) && FinePossible(FineRun(steps), step)
  {
    assert (steps + [step])[..|steps|] == steps;
  }

  ghost function AllWhole(steps: seq<Step>): seq<FineStep>
    decreases |steps|
  {
    if steps == [] then [] else AllWhole(steps[..|steps| - 1]) + [Whole(steps[|steps| - 1])]
  }

  /** Without interruptions the fine steps run as the whole ones do. */
  lemma {:induction false} WholeRunsAgree(steps: seq<Step>)
    ensures FineRun(AllWhole(steps)) == System(Run(steps), multiset{}, multiset{})
    ensures IsFineRun(AllWhole(steps)) <==> IsRun(steps)
    decreases |steps|
  {
    if steps != [] {
      WholeRunsAgree(steps[..|steps| - 1]);
      FineRunOneMore(AllWhole(steps[..|steps| - 1]), Whole(steps[|steps| - 1]));
    }
  }
}
