/** The voice functions as methods on the shared keys. */
module VoicePresence {
  import opened Models
  import opened VoiceModel

  class VoiceStore {
    var members: map<string, set<string>>
    var channels: map<string, set<string>>
    var active: set<string>
    var current: map<Slot, string>
    var states: map<Slot, Parts>

    constructor ()
      ensures V() == SILENCE
    {
      members, channels, active, current, states := map[], map[], {}, map[], map[];
    }

    function V(): Voice
      reads this
    {
      Voice(members, channels, active, current, states)
    }

    method CreateVoiceState(channel: string, server: Option<string>, user: string, at: int)
      returns (state: UserVoiceState)
      modifies this
      ensures V() == Joined(old(V()), channel, server, user, at)
      ensures state == UserVoiceState(user, at, false, true, false, false)
      ensures HasState(V(), channel, server, user) && StateOf(V(), channel, server, user) == state
    {
      var slot := SlotOf(channel, server, user);
      state := UserVoiceState(user, at, false, true, false, false);
      members := members[channel := MembersOf(V(), channel) + {user}];
      channels := channels[user := ChannelsOf(V(), user) + {channel}];
      current := current[slot := channel];
      states := states[slot := Parts(Some(at), Some(state.publishing), Some(state.receiving),
                                     Some(state.screensharing), Some(state.camera))];
      active := active + {channel};
    }

    method DeleteVoiceState(channel: string, server: Option<string>, user: string)
      modifies this
      ensures V() == Left(old(V()), channel, server, user)
    {
      var slot := SlotOf(channel, server, user);
      members := members[channel := MembersOf(V(), channel) - {user}];
      channels := channels[user := ChannelsOf(V(), user) - {channel}];
      current, states := current - {slot}, states - {slot};
      var remaining := |MembersOf(V(), channel)|;
      if remaining == 0 {
        active := active - {channel};
      }
    }

    method UpdateVoiceState(slot: Slot, patch: Parts)
      modifies this
      ensures V() == Updated(old(V()), slot, patch)
    {
      var parts := PartsOf(V(), slot);
      if patch.camera.Some? {
        parts := parts.(camera := patch.camera);
      }
      if patch.publishing.Some? {
        parts := parts.(publishing := patch.publishing);
      }
      if patch.receiving.Some? {
        parts := parts.(receiving := patch.receiving);
      }
      if patch.screensharing.Some? {
        parts := parts.(screensharing := patch.screensharing);
      }
      states := states[slot := parts];
    }

    /** A state counts only if all five of its keys are there. */
    method GetVoiceState(channel: string, server: Option<string>, user: string)
      returns (state: Option<UserVoiceState>)
      ensures state.Some? <==> HasState(V(), channel, server, user)
      ensures state.Some? ==> StateOf(V(), channel, server, user) == state.value
    {
      var parts := PartsOf(V(), SlotOf(channel, server, user));
      match parts {
        case Parts(Some(at), Some(publishing), Some(receiving), Some(screensharing), Some(camera)) =>
          state := Some(UserVoiceState(user, at, publishing, receiving, screensharing, camera));
        case _ =>
          state := None;
      }
    }

    /** A set's content in some order. */
    method Listed(s: set<string>) returns (listed: seq<string>)
      ensures Enumerates(listed, s)
    {
      listed := [];
      var rest := s;
      while rest != {}
        invariant rest <= s
        invariant forall x :: x in listed <==> x in s && x !in rest
        invariant forall i, j :: 0 <= i < j < |listed| ==> listed[i] != listed[j]
        decreases rest
      {
        var x :| x in rest;
        rest := rest - {x};
        listed := listed + [x];
      }
    }

    /** Report a channel's participants, dropping members whose state is incomplete. */
    method GetChannelVoiceState(channel: string, server: Option<string>)
      returns (state: Option<seq<UserVoiceState>>, ghost listed: seq<string>)
      modifies this
      ensures Enumerates(listed, MembersOf(old(V()), channel))
      ensures V() == Healed(old(V()), channel, server, listed)
      ensures state.None? <==> MembersOf(old(V()), channel) == {}
      ensures state.Some? ==>
        && (forall i :: 0 <= i < |state.value| ==> Participant(V(), channel, server, state.value[i]))
        && (forall i, j :: 0 <= i < j < |state.value| ==> state.value[i].id != state.value[j].id)
        && (forall user :: user in MembersOf(V(), channel) ==> Reported(state.value, user))
    {
      ghost var before := V();
      var users := Listed(MembersOf(V(), channel));
      listed := users;
      if users == [] {
        assert MembersOf(V(), channel) == {};
        return None, users;
      }
      assert users[0] in MembersOf(V(), channel);
      var participants: seq<UserVoiceState> := [];
      for i := 0 to |users|
        invariant V() == Healed(before, channel, server, users[..i])
        invariant Gathered(before, channel, server, users[..i], participants)
      {
        assert users[..i + 1] == users[..i] + [users[i]];
        HealingKeepsState(before, channel, server, users[..i], users[i]);
        var found := GetVoiceState(channel, server, users[i]);
        GatherOneMore(before, channel, server, users[..i], participants, users[i]);
        if found.Some? {
          participants := participants + [found.value];
        } else {
          DeleteVoiceState(channel, server, users[i]);
        }
      }
      assert users[..|users|] == users;
      state := Some(participants);
      GatheredIsAll(before, channel, server, users, participants);
    }

    /** Leave every channel the user is in. */
    method CleanupOnDisconnect(user: string, serverOf: string -> Option<string>) returns (ghost listed: seq<string>)
      modifies this
      ensures Enumerates(listed, ChannelsOf(old(V()), user))
      ensures V() == LeftAll(old(V()), listed, serverOf, user)
    {
      ghost var before := V();
      var mine := Listed(ChannelsOf(V(), user));
      listed := mine;
      for i := 0 to |mine|
        invariant V() == LeftAll(before, mine[..i], serverOf, user)
      {
        assert mine[..i + 1][..i] == mine[..i];
        DeleteVoiceState(mine[i], serverOf(mine[i]), user);
      }
      assert mine[..|mine|] == mine;
    }

    method DeleteChannelVoiceState(channel: string, server: Option<string>, users: seq<string>)
      modifies this
      ensures V() == Cleared(old(V()), channel, server, Elements(users))
    {
      ghost var before := V();
      members := members - {channel};
      for i := 0 to |users|
        invariant members == before.members - {channel} && active == before.active
        invariant var done := Cleared(before, channel, server, Elements(users[..i]));
          channels == done.channels && current == done.current && states == done.states
      {
        assert users[..i + 1] == users[..i] + [users[i]];
        assert Elements(users[..i + 1]) == Elements(users[..i]) + {users[i]};
        ClearOneMore(before, channel, server, Elements(users[..i]), users[i]);
        var slot := SlotOf(channel, server, users[i]);
        channels := channels[users[i] := ChannelsOf(V(), users[i]) - {channel}];
        current, states := current - {slot}, states - {slot};
      }
      assert users[..|users|] == users;
      active := active - {channel};
    }

    method DeleteVoiceChannel(channel: string, server: Option<string>)
      modifies this
      ensures V() == Next(old(V()), DeleteChannel(channel, server))
    {
      var users := Listed(MembersOf(V(), channel));
      assert Elements(users) == MembersOf(V(), channel);
      if users != [] {
        assert users[0] in MembersOf(V(), channel);
        DeleteChannelVoiceState(channel, server, users);
      }
    }
  }

  ghost function StateOf(v: Voice, channel: string, server: Option<string>, user: string): UserVoiceState
    requires HasState(v, channel, server, user)
  {
    var p := PartsOf(v, SlotOf(channel, server, user));
    UserVoiceState(user, p.joinedAt.value, p.publishing.value, p.receiving.value, p.screensharing.value, p.camera.value)
  }

  ghost predicate Participant(v: Voice, channel: string, server: Option<string>, state: UserVoiceState) {
    && state.id in MembersOf(v, channel)
    && HasState(v, channel, server, state.id)
    && state == StateOf(v, channel, server, state.id)
  }

  ghost predicate Reported(states: seq<UserVoiceState>, user: string) {
    exists i :: 0 <= i < |states| && states[i].id == user
  }

  /** `states` are the full states of the users visited, in that order. */
  ghost predicate Gathered(
    v: Voice, channel: string, server: Option<string>, visited: seq<string>, states: seq<UserVoiceState>)
  {
    && (forall i :: 0 <= i < |states| ==>
          && states[i].id in visited && HasState(v, channel, server, states[i].id)
          && states[i] == StateOf(v, channel, server, states[i].id))
    && (forall i, j :: 0 <= i < j < |states| ==> states[i].id != states[j].id)
    && (forall user :: user in visited && HasState(v, channel, server, user) ==> Reported(states, user))
  }

  lemma GatherOneMore(
    v: Voice, channel: string, server: Option<string>, visited: seq<string>, states: seq<UserVoiceState>, user: string)
    requires Gathered(v, channel, server, visited, states) && user !in visited
    ensures !HasState(v, channel, server, user) ==> Gathered(v, channel, server, visited + [user], states)
    ensures HasState(v, channel, server, user) ==>
      Gathered(v, channel, server, visited + [user], states + [StateOf(v, channel, server, user)])
  {
    if HasState(v, channel, server, user) {
      var more := states + [StateOf(v, channel, server, user)];
      assert more[|states|].id == user;
      forall u | u in visited + [user] && HasState(v, channel, server, u) ensures Reported(more, u) {
        if u in visited {
          assert Reported(states, u);
          var i :| 0 <= i < |states| && states[i].id == u;
          assert more[i].id == u;
        }
      }
    }
  }

  lemma HealingKeepsState(v: Voice, channel: string, server: Option<string>, listed: seq<string>, user: string)
    ensures var w := Healed(v, channel, server, listed);
      && (HasState(w, channel, server, user) <==> HasState(v, channel, server, user))
      && (HasState(v, channel, server, user) ==>
            StateOf(w, channel, server, user) == StateOf(v, channel, server, user))
  {
    HealedStates(v, channel, server, listed, user);
  }

  lemma GatheredIsAll(
    v: Voice, channel: string, server: Option<string>, listed: seq<string>, states: seq<UserVoiceState>)
    requires Enumerates(listed, MembersOf(v, channel)) && Gathered(v, channel, server, listed, states)
    ensures var w := Healed(v, channel, server, listed);
      && (forall i :: 0 <= i < |states| ==> Participant(w, channel, server, states[i]))
      && (forall user :: user in MembersOf(w, channel) ==> Reported(states, user))
  {
    var w := Healed(v, channel, server, listed);
    ReadLeavesFullStates(v, channel, server, listed);
    forall i | 0 <= i < |states| ensures Participant(w, channel, server, states[i]) {
      HealingKeepsState(v, channel, server, listed, states[i].id);
    }
  }

  lemma OneMoreSlot(channel: string, server: Option<string>, users: set<string>, user: string)
    ensures SlotsOf(channel, server, users + {user})
         == SlotsOf(channel, server, users) + {SlotOf(channel, server, user)}
  {
  }

  lemma WithoutOneMore<K, T>(m: map<K, T>, gone: set<K>, k: K)
    ensures m - (gone + {k}) == m - gone - {k}
  {
  }

  lemma ClearOneMoreUser(v: Voice, channel: string, server: Option<string>, users: set<string>, user: string)
    ensures var before, after := Cleared(v, channel, server, users), Cleared(v, channel, server, users + {user});
      after.channels == before.channels[user := ChannelsOf(before, user) - {channel}]
  {
    var before := Cleared(v, channel, server, users);
    assert ChannelsOf(before, user) - {channel} == ChannelsOf(v, user) - {channel};
  }

  lemma ClearOneMore(v: Voice, channel: string, server: Option<string>, users: set<string>, user: string)
    ensures var before, after := Cleared(v, channel, server, users), Cleared(v, channel, server, users + {user});
      var slot := SlotOf(channel, server, user);
      && after.channels == before.channels[user := ChannelsOf(before, user) - {channel}]
      && after.current == before.current - {slot} && after.states == before.states - {slot}
  {
    ClearOneMoreUser(v, channel, server, users, user);
    OneMoreSlot(channel, server, users, user);
    WithoutOneMore(v.current, SlotsOf(channel, server, users), SlotOf(channel, server, user));
    WithoutOneMore(v.states, SlotsOf(channel, server, users), SlotOf(channel, server, user));
  }
}
