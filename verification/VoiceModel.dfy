/**
 Voice presence: each channel's member set and each user's channel set mirror
 one another, a set lists the channels in use, and each user has a voice state
 per server (or per channel outside servers).
 */
module VoiceModel {
  import opened Models

  /** The key of a user's voice state: the user with the server, or the channel where there is none. */
  datatype Slot = Slot(user: string, parent: string)

  /** The five separate keys of a voice state, any of which may be missing. */
  datatype Parts = Parts(
    joinedAt: Option<int>,
    publishing: Option<bool>,
    receiving: Option<bool>,
    screensharing: Option<bool>,
    camera: Option<bool>)
  {
    predicate Full() {
      joinedAt.Some? && publishing.Some? && receiving.Some? && screensharing.Some? && camera.Some?
    }
  }

  datatype UserVoiceState = UserVoiceState(
    id: string, joinedAt: int, publishing: bool, receiving: bool, screensharing: bool, camera: bool)

  const NO_PARTS := Parts(None, None, None, None, None)

  datatype Voice = Voice(
    members: map<string, set<string>>,
    channels: map<string, set<string>>,
    active: set<string>,
    current: map<Slot, string>,
    states: map<Slot, Parts>)

  const SILENCE := Voice(map[], map[], {}, map[], map[])

  function SlotOf(channel: string, server: Option<string>, user: string): Slot {
    Slot(user, if server.Some? then server.value else channel)
  }

  function MembersOf(v: Voice, channel: string): set<string> {
    if channel in v.members then v.members[channel] else {}
  }

  function ChannelsOf(v: Voice, user: string): set<string> {
    if user in v.channels then v.channels[user] else {}
  }

  function PartsOf(v: Voice, slot: Slot): Parts {
    if slot in v.states then v.states[slot] else NO_PARTS
  }

  function Joined(v: Voice, channel: string, server: Option<string>, user: string, at: int): Voice {
    var slot := SlotOf(channel, server, user);
    Voice(v.members[channel := MembersOf(v, channel) + {user}],
          v.channels[user := ChannelsOf(v, user) + {channel}],
          v.active + {channel},
          v.current[slot := channel],
          v.states[slot := Parts(Some(at), Some(false), Some(true), Some(false), Some(false))])
  }

  /** The first round trip of a leave: both sets and the state. */
  function Unlinked(v: Voice, channel: string, server: Option<string>, user: string): Voice {
    var slot := SlotOf(channel, server, user);
    v.(members := v.members[channel := MembersOf(v, channel) - {user}],
       channels := v.channels[user := ChannelsOf(v, user) - {channel}],
       current := v.current - {slot},
       states := v.states - {slot})
  }

  function Left(v: Voice, channel: string, server: Option<string>, user: string): Voice {
    var unlinked := Unlinked(v, channel, server, user);
    if MembersOf(unlinked, channel) == {} then unlinked.(active := v.active - {channel}) else unlinked
  }

  function Updated(v: Voice, slot: Slot, patch: Parts): Voice {
    var was := PartsOf(v, slot);
    v.(states := v.states[slot := Parts(
      was.joinedAt,
      if patch.publishing.Some? then patch.publishing else was.publishing,
      if patch.receiving.Some? then patch.receiving else was.receiving,
      if patch.screensharing.Some? then patch.screensharing else was.screensharing,
      if patch.camera.Some? then patch.camera else was.camera)])
  }

  function SlotsOf(channel: string, server: Option<string>, users: set<string>): set<Slot> {
    set user | user in users :: SlotOf(channel, server, user)
  }

  function Elements(ss: seq<string>): set<string> {
    set s | s in ss
  }

  /** Drop the whole member set, and the channel from the sets of the listed users. */
  function Cleared(v: Voice, channel: string, server: Option<string>, users: set<string>): Voice {
    var slots := SlotsOf(channel, server, users);
    Voice(v.members - {channel},
          map user | user in v.channels.Keys + users ::
            if user in users then ChannelsOf(v, user) - {channel} else ChannelsOf(v, user),
          v.active - {channel},
          v.current - slots,
          v.states - slots)
  }

  /** Leave the listed channels one after the other. */
  function LeftAll(v: Voice, listed: seq<string>, serverOf: string -> Option<string>, user: string): Voice
    decreases |listed|
  {
    if listed == [] then v
    else
      var channel := listed[|listed| - 1];
      Left(LeftAll(v, listed[..|listed| - 1], serverOf, user), channel, serverOf(channel), user)
  }

  /** Visit the listed members and remove those without a full state. */
  function Healed(v: Voice, channel: string, server: Option<string>, listed: seq<string>): Voice
    decreases |listed|
  {
    if listed == [] then v
    else
      var rest, user := Healed(v, channel, server, listed[..|listed| - 1]), listed[|listed| - 1];
      if PartsOf(rest, SlotOf(channel, server, user)).Full() then rest else Left(rest, channel, server, user)
  }

  // ----- The invariants -----

  ghost predicate Mirrored(v: Voice) {
    forall user, channel :: user in MembersOf(v, channel) <==> channel in ChannelsOf(v, user)
  }

  ghost predicate ActiveMatches(v: Voice) {
    forall channel :: channel in v.active <==> MembersOf(v, channel) != {}
  }

  datatype Step =
    | Join(channel: string, server: Option<string>, user: string, at: int)
    | Leave(channel: string, server: Option<string>, user: string)
    | Update(slot: Slot, patch: Parts)
    | DeleteChannel(channel: string, server: Option<string>)
    | Disconnect(user: string, listed: seq<string>, serverOf: string -> Option<string>)
    | Read(channel: string, server: Option<string>, listed: seq<string>)

  /** `listed` is a set's content in the order Redis returned it. */
  ghost predicate Enumerates(listed: seq<string>, s: set<string>) {
    && (forall x :: x in listed <==> x in s)
    && (forall i, j :: 0 <= i < j < |listed| ==> listed[i] != listed[j])
  }

  ghost predicate Possible(v: Voice, step: Step) {
    match step
    case Disconnect(user, listed, _) => Enumerates(listed, ChannelsOf(v, user))
    case Read(channel, _, listed) => Enumerates(listed, MembersOf(v, channel))
    case _ => true
  }

  function Next(v: Voice, step: Step): Voice {
    match step
    case Join(channel, server, user, at) => Joined(v, channel, server, user, at)
    case Leave(channel, server, user) => Left(v, channel, server, user)
    case Update(slot, patch) => Updated(v, slot, patch)
    case DeleteChannel(channel, server) =>
      if MembersOf(v, channel) == {} then v else Cleared(v, channel, server, MembersOf(v, channel))
    case Disconnect(user, listed, serverOf) => LeftAll(v, listed, serverOf, user)
    case Read(channel, server, listed) => Healed(v, channel, server, listed)
  }

  function Run(steps: seq<Step>): Voice
    decreases |steps|
  {
    if steps == [] then SILENCE else Next(Run(steps[..|steps| - 1]), steps[|steps| - 1])
  }

  ghost predicate IsRun(steps: seq<Step>)
    decreases |steps|
  {
    steps == [] || (IsRun(steps[..|steps| - 1]) && Possible(Run(steps[..|steps| - 1]), steps[|steps| - 1]))
  }

  lemma JoinKeeps(v: Voice, channel: string, server: Option<string>, user: string, at: int)
    requires Mirrored(v) && ActiveMatches(v)
    ensures Mirrored(Joined(v, channel, server, user, at)) && ActiveMatches(Joined(v, channel, server, user, at))
  {
    var w := Joined(v, channel, server, user, at);
    forall u, c ensures u in MembersOf(w, c) <==> c in ChannelsOf(w, u) {
      assert u in MembersOf(v, c) <==> c in ChannelsOf(v, u);
    }
    assert user in MembersOf(w, channel);
  }

  lemma LeaveKeeps(v: Voice, channel: string, server: Option<string>, user: string)
    requires Mirrored(v) && ActiveMatches(v)
    ensures Mirrored(Left(v, channel, server, user)) && ActiveMatches(Left(v, channel, server, user))
  {
    var w := Left(v, channel, server, user);
    forall u, c ensures u in MembersOf(w, c) <==> c in ChannelsOf(w, u) {
      assert u in MembersOf(v, c) <==> c in ChannelsOf(v, u);
    }
    if MembersOf(w, channel) != {} {
      assert MembersOf(v, channel) != {};
    }
  }

  /** Clearing a channel keeps the mirror exactly if nobody joined since its members were listed. */
  lemma ClearKeepsMirrorIff(v: Voice, channel: string, server: Option<string>, users: set<string>)
    requires Mirrored(v)
    ensures Mirrored(Cleared(v, channel, server, users)) <==> MembersOf(v, channel) <= users
    ensures ActiveMatches(v) ==> ActiveMatches(Cleared(v, channel, server, users))
  {
    var w := Cleared(v, channel, server, users);
    assert MembersOf(w, channel) == {};
    forall u, c ensures c in ChannelsOf(w, u) <==> c in ChannelsOf(v, u) && !(c == channel && u in users) {
    }
    if MembersOf(v, channel) <= users {
      forall u, c ensures u in MembersOf(w, c) <==> c in ChannelsOf(w, u) {
        assert u in MembersOf(v, c) <==> c in ChannelsOf(v, u);
      }
    } else {
      var u :| u in MembersOf(v, channel) && u !in users;
      assert u !in MembersOf(w, channel) && channel in ChannelsOf(w, u);
    }
    forall c ensures MembersOf(w, c) == if c == channel then {} else MembersOf(v, c) {
    }
  }

  lemma {:induction false} LeaveAllKeeps(
    v: Voice, listed: seq<string>, serverOf: string -> Option<string>, user: string)
    requires Mirrored(v) && ActiveMatches(v)
    ensures Mirrored(LeftAll(v, listed, serverOf, user)) && ActiveMatches(LeftAll(v, listed, serverOf, user))
    decreases |listed|
  {
    if listed != [] {
      var init, channel := listed[..|listed| - 1], listed[|listed| - 1];
      LeaveAllKeeps(v, init, serverOf, user);
      LeaveKeeps(LeftAll(v, init, serverOf, user), channel, serverOf(channel), user);
    }
  }

  lemma {:induction false} HealKeeps(v: Voice, channel: string, server: Option<string>, listed: seq<string>)
    requires Mirrored(v) && ActiveMatches(v)
    ensures Mirrored(Healed(v, channel, server, listed)) && ActiveMatches(Healed(v, channel, server, listed))
    decreases |listed|
  {
    if listed != [] {
      var init, user := listed[..|listed| - 1], listed[|listed| - 1];
      HealKeeps(v, channel, server, init);
      LeaveKeeps(Healed(v, channel, server, init), channel, server, user);
    }
  }

  /** In every run the two kinds of sets mirror each other and the active channels are those with members. */
  lemma {:induction false} EveryRunIsMirrored(steps: seq<Step>)
    requires IsRun(steps)
    ensures Mirrored(Run(steps)) && ActiveMatches(Run(steps))
    decreases |steps|
  {
    if steps != [] {
      var init := steps[..|steps| - 1];
      EveryRunIsMirrored(init);
      var v := Run(init);
      match steps[|steps| - 1] {
        case Join(channel, server, user, at) => JoinKeeps(v, channel, server, user, at);
        case Leave(channel, server, user) => LeaveKeeps(v, channel, server, user);
        case Update(slot, patch) =>
          var w := Updated(v, slot, patch);
          forall c ensures MembersOf(w, c) == MembersOf(v, c) {
          }
          forall u ensures ChannelsOf(w, u) == ChannelsOf(v, u) {
          }
        case DeleteChannel(channel, server) => ClearKeepsMirrorIff(v, channel, server, MembersOf(v, channel));
        case Disconnect(user, listed, serverOf) => LeaveAllKeeps(v, listed, serverOf, user);
        case Read(channel, server, listed) => HealKeeps(v, channel, server, listed);
      }
    }
  }

  // ----- Disconnecting -----

  lemma {:induction false} LeftAllEffect(
    v: Voice, listed: seq<string>, serverOf: string -> Option<string>, user: string, other: string)
    ensures ChannelsOf(LeftAll(v, listed, serverOf, user), other)
         == if other == user then ChannelsOf(v, user) - Elements(listed) else ChannelsOf(v, other)
    decreases |listed|
  {
    if listed != [] {
      LeftAllEffect(v, listed[..|listed| - 1], serverOf, user, other);
      assert listed == listed[..|listed| - 1] + [listed[|listed| - 1]];
    }
  }

  /** After a disconnect the user is in no channel, whatever servers the lookups returned; nobody else has moved. */
  lemma DisconnectLeavesNothing(steps: seq<Step>, user: string, listed: seq<string>, serverOf: string -> Option<string>)
    requires IsRun(steps) && Possible(Run(steps), Disconnect(user, listed, serverOf))
    ensures var v := Next(Run(steps), Disconnect(user, listed, serverOf));
      && ChannelsOf(v, user) == {}
      && (forall channel :: user !in MembersOf(v, channel))
      && (forall other :: other != user ==> ChannelsOf(v, other) == ChannelsOf(Run(steps), other))
  {
    var v := LeftAll(Run(steps), listed, serverOf, user);
    EveryRunIsMirrored(steps);
    LeaveAllKeeps(Run(steps), listed, serverOf, user);
    LeftAllEffect(Run(steps), listed, serverOf, user, user);
    assert ChannelsOf(v, user) == {};
    forall channel ensures user !in MembersOf(v, channel) {
      assert user in MembersOf(v, channel) <==> channel in ChannelsOf(v, user);
    }
    forall other | other != user ensures ChannelsOf(v, other) == ChannelsOf(Run(steps), other) {
      LeftAllEffect(Run(steps), listed, serverOf, user, other);
    }
  }

  // ----- Reading a channel -----

  ghost predicate HasState(v: Voice, channel: string, server: Option<string>, user: string) {
    PartsOf(v, SlotOf(channel, server, user)).Full()
  }

  lemma {:induction false} HealedStates(
    v: Voice, channel: string, server: Option<string>, listed: seq<string>, user: string)
    ensures var w := Healed(v, channel, server, listed);
      && (HasState(w, channel, server, user) <==> HasState(v, channel, server, user))
      && (HasState(v, channel, server, user) ==>
            PartsOf(w, SlotOf(channel, server, user)) == PartsOf(v, SlotOf(channel, server, user)))
    decreases |listed|
  {
    if listed != [] {
      HealedStates(v, channel, server, listed[..|listed| - 1], user);
    }
  }

  lemma {:induction false} HealedMembers(
    v: Voice, channel: string, server: Option<string>, listed: seq<string>, user: string, other: string)
    ensures var w := Healed(v, channel, server, listed);
      && (user in MembersOf(w, channel) <==>
            user in MembersOf(v, channel) && (user in listed ==> HasState(v, channel, server, user)))
      && (other != channel ==> MembersOf(w, other) == MembersOf(v, other))
    decreases |listed|
  {
    if listed != [] {
      var init, last := listed[..|listed| - 1], listed[|listed| - 1];
      assert listed == init + [last];
      HealedMembers(v, channel, server, init, user, other);
      HealedStates(v, channel, server, init, last);
    }
  }

  /** Reading a channel leaves exactly the members with a full state, and touches no other channel. */
  lemma ReadLeavesFullStates(v: Voice, channel: string, server: Option<string>, listed: seq<string>)
    requires Enumerates(listed, MembersOf(v, channel))
    ensures var w := Healed(v, channel, server, listed);
      && MembersOf(w, channel) == (set u | u in MembersOf(v, channel) && HasState(v, channel, server, u))
      && (forall u :: u in MembersOf(w, channel) ==> HasState(w, channel, server, u))
      && (forall other :: other != channel ==> MembersOf(w, other) == MembersOf(v, other))
  {
    var w := Healed(v, channel, server, listed);
    forall u
      ensures u in MembersOf(w, channel) <==> u in MembersOf(v, channel) && HasState(v, channel, server, u)
      ensures HasState(w, channel, server, u) <==> HasState(v, channel, server, u)
    {
      HealedMembers(v, channel, server, listed, u, channel);
      HealedStates(v, channel, server, listed, u);
    }
    forall other | other != channel ensures MembersOf(w, other) == MembersOf(v, other) {
      HealedMembers(v, channel, server, listed, "", other);
    }
  }

  // ----- One state per server -----

  /** Leaving one channel spares the user's state in another if and only if the two do not share it. */
  lemma LeaveSparesStateIff(
    v: Voice, left: string, leftIn: Option<string>, kept: string, keptIn: Option<string>, user: string)
    requires HasState(v, kept, keptIn, user)
    ensures HasState(Left(v, left, leftIn, user), kept, keptIn, user)
       <==> SlotOf(left, leftIn, user) != SlotOf(kept, keptIn, user)
  {
  }

  /** So after leaving one channel a read of another removes the user from it exactly if they share a server. */
  lemma LeaveEndsOtherMembershipIff(
    v: Voice, left: string, leftIn: Option<string>, kept: string, keptIn: Option<string>, user: string,
    listed: seq<string>)
    requires left != kept && user in MembersOf(v, kept) && HasState(v, kept, keptIn, user)
    requires Enumerates(listed, MembersOf(Left(v, left, leftIn, user), kept))
    ensures user !in MembersOf(Healed(Left(v, left, leftIn, user), kept, keptIn, listed), kept)
       <==> SlotOf(left, leftIn, user) == SlotOf(kept, keptIn, user)
  {
    LeaveSparesStateIff(v, left, leftIn, kept, keptIn, user);
    ReadLeavesFullStates(Left(v, left, leftIn, user), kept, keptIn, listed);
    assert user in MembersOf(Left(v, left, leftIn, user), kept);
  }

  // ----- Deleting a channel -----

  /**
   In every run a deleted channel has no member and is not active, no user's set lists it, its members' states are
   gone, and no other membership changes.
   */
  lemma DeletionLeavesNobody(steps: seq<Step>, channel: string, server: Option<string>, user: string, other: string)
    requires IsRun(steps)
    ensures var v := Run(steps);
      var w := Next(v, DeleteChannel(channel, server));
      && MembersOf(w, channel) == {} && channel !in w.active
      && ChannelsOf(w, user) == ChannelsOf(v, user) - {channel}
      && (other != channel ==> MembersOf(w, other) == MembersOf(v, other) && (other in w.active <==> other in v.active))
      && (user in MembersOf(v, channel) ==> !HasState(w, channel, server, user))
  {
    EveryRunIsMirrored(steps);
    assert user in MembersOf(Run(steps), channel) <==> channel in ChannelsOf(Run(steps), user);
    assert channel in Run(steps).active <==> MembersOf(Run(steps), channel) != {};
  }

  // ----- One run after another -----

  lemma RunOneMore(steps: seq<Step>, step: Step)
    ensures Run(steps + [step]) == Next(Run(steps), step)
    ensures IsRun(steps + [step]) <==> IsRun(steps) && Possible(Run(steps), step)
  {
    assert (steps + [step])[..|steps|] == steps;
  }

  /** After any run somebody who joins is a member of the channel, which is active, until they leave it. */
  lemma JoinThenLeave(steps: seq<Step>, channel: string, server: Option<string>, user: string, at: int)
    requires IsRun(steps)
    ensures var joined := steps + [Join(channel, server, user, at)];
      var left := joined + [Leave(channel, server, user)];
      && IsRun(left)
      && user in MembersOf(Run(joined), channel) && channel in ChannelsOf(Run(joined), user)
      && channel in Run(joined).active && HasState(Run(joined), channel, server, user)
      && user !in MembersOf(Run(left), channel) && channel !in ChannelsOf(Run(left), user)
      && (channel in Run(left).active <==> MembersOf(Run(steps), channel) - {user} != {})
  {
    RunOneMore(steps, Join(channel, server, user, at));
    RunOneMore(steps + [Join(channel, server, user, at)], Leave(channel, server, user));
    assert MembersOf(Run(steps), channel) + {user} - {user} == MembersOf(Run(steps), channel) - {user};
  }
}
