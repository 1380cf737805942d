/**
 The mutable state of one client connection: cached records, the local topic set
 and the pending change, with the methods the listener calls on it.
 */
module ClientState {
  import opened Models
  import opened Subscriptions
  import opened Events

  /** `ids` lists exactly the elements of `s`, once each. */
  ghost predicate Lists(ids: seq<string>, s: set<string>) {
    && Elements(ids) == s
    && forall i, j :: 0 <= i < j < |ids| ==> ids[i] != ids[j]
  }

  function DeleteEvents(ids: seq<string>): (v: seq<Event>)
    ensures |v| == |ids|
    decreases |ids|
  {
    if ids == [] then []
    else DeleteEvents(ids[..|ids| - 1]) + [ChannelDelete(ids[|ids| - 1])]
  }

  predicate AllKnown(ids: seq<string>, channels: map<string, Channel>) {
    forall i :: 0 <= i < |ids| ==> ids[i] in channels
  }

  function CreateEvents(ids: seq<string>, channels: map<string, Channel>): (v: seq<Event>)
    requires AllKnown(ids, channels)
    ensures |v| == |ids|
    decreases |ids|
  {
    if ids == [] then []
    else CreateEvents(ids[..|ids| - 1], channels) + [ChannelCreate(channels[ids[|ids| - 1]])]
  }

  /** One delete per dropped channel, one create per fetched channel, then the original event. */
  ghost predicate BulkFor(out: Event, event: Event, r: Recalculation) {
    if r.dropped == {} && r.fetched == map[] then out == event
    else exists gone, come ::
      && Lists(gone, r.dropped) && Lists(come, r.fetched.Keys) && AllKnown(come, r.fetched)
      && out == Bulk(DeleteEvents(gone) + CreateEvents(come, r.fetched) + [event])
  }

  /** The event sent on is the one the specification names. */
  ghost predicate ForwardedAs(out: Event, send: bool, event: Event, f: Forward) {
    match f
    case Same => send && out == event
    case Instead(e) => send && out == e
    case Recalculated(r) => send && BulkFor(out, event, r)
    case Withheld => !send
  }

  lemma InsertedOneMore(s: Subs, ids: seq<string>, i: nat)
    requires i < |ids|
    ensures Inserted(Inserted(s, Elements(ids[..i])), {ids[i]}) == Inserted(s, Elements(ids[..i + 1]))
  {
    assert Elements(ids[..i + 1]) == Elements(ids[..i]) + {ids[i]};
  }

  function MemberTopics(servers: seq<string>): seq<string> {
    seq(|servers|, i requires 0 <= i < |servers| => MemberTopic(servers[i]))
  }

  /** A pending reset to exactly the topics of the first payload. */
  function ReadySubs(
    privateTopic: string, isBot: bool, users: seq<string>, servers: seq<string>, channels: seq<string>): Subs
  {
    Subs({privateTopic} + Elements(users) + Elements(servers) + Elements(channels)
         + (if isBot then Elements(MemberTopics(servers)) else {}), true, {}, {})
  }

  class State {
    const userId: string
    const privateTopic: string
    var isBot: bool
    var users: map<string, User>
    var channels: map<string, Channel>
    var members: map<string, Member>
    var servers: map<string, Server>
    var seen: seq<string>
    var state: Change
    var subscribed: set<string>

    function CacheView(): Cache
      reads this
    {
      Cache(userId, isBot, users, channels, members, servers, seen)
    }

    function SubsView(): Subs
      reads this
    {
      ViewOf(subscribed, state)
    }

    constructor From(user: User)
      ensures userId == user.id && privateTopic == user.id + "!" && users == map[user.id := user]
      ensures SubsView() == Subs({user.id + "!", user.id}, true, {}, {})
    {
      userId, privateTopic, isBot := user.id, user.id + "!", false;
      users := map[user.id := user];
      channels, members, servers, seen := map[], map[], map[], [];
      state := Reset;
      subscribed := {user.id + "!", user.id};
    }

    // ----- Subscriptions -----

    method ResetState()
      modifies `state, `subscribed
      ensures SubsView() == Subs({}, true, {}, {})
    {
      state := Reset;
      subscribed := {};
    }

    method InsertSubscription(id: string)
      modifies `state, `subscribed
      ensures SubsView() == Inserted(old(SubsView()), {id})
    {
      if id in subscribed {
        assert subscribed + {id} == subscribed && {id} - subscribed == {};
        return;
      }
      match state {
        case NoChange => state := Change([id], []);
        case Change(add, remove) => state := Change(add + [id], remove);
        case Reset =>
      }
      subscribed := subscribed + {id};
    }

    /** Aborts, changing nothing, when a subscribed id is removed while a reset is pending. */
    method RemoveSubscription(id: string) returns (panicked: bool)
      modifies `state, `subscribed
      ensures panicked <==> RemovalPanics(old(SubsView()), id)
      ensures panicked ==> SubsView() == old(SubsView())
      ensures !panicked ==> SubsView() == Removed(old(SubsView()), {id})
    {
      if id !in subscribed {
        assert subscribed - {id} == subscribed && {id} * subscribed == {};
        return false;
      }
      match state {
        case NoChange => state := Change([], [id]);
        case Change(add, remove) => state := Change(add, remove + [id]);
        case Reset => return true;
      }
      assert {id} * subscribed == {id};
      subscribed := subscribed - {id};
      panicked := false;
    }

    /** Apply the reports about active servers, then hand out and clear the pending change. */
    method ApplyState(active: seq<Active>) returns (change: Change, panicked: bool)
      modifies `state, `subscribed
      ensures panicked <==> !isBot && ActivePanics(old(SubsView()), active)
      ensures !panicked ==>
        var s := if isBot then old(SubsView()) else AfterActive(old(SubsView()), active);
        && SubsView() == Flushed(s)
        && (change.Reset? <==> s.reset)
        && (change.Change? ==> Elements(change.add) == s.add && Elements(change.remove) == s.remove)
        && (change.NoChange? ==> !s.reset && s.add == {} && s.remove == {})
    {
      change, panicked := NoChange, false;
      if !isBot {
        panicked := ApplyActive(active);
        if panicked {
          return;
        }
      }
      change, state := state, NoChange;
      if change.Change? {
        subscribed := subscribed + Elements(change.add) - Elements(change.remove);
      }
    }

    method ApplyActive(active: seq<Active>) returns (panicked: bool)
      modifies `state, `subscribed
      ensures panicked <==> ActivePanics(old(SubsView()), active)
      ensures !panicked ==> SubsView() == AfterActive(old(SubsView()), active)
    {
      ghost var s0 := SubsView();
      for i := 0 to |active|
        invariant SubsView() == AfterActive(s0, active[..i])
        invariant forall j :: 0 <= j < i && active[j].Expired? ==>
          !RemovalPanics(AfterActive(s0, active[..j]), MemberTopic(active[j].server))
      {
        assert active[..i + 1][..i] == active[..i];
        if active[i].Valid? {
          InsertSubscription(MemberTopic(active[i].server));
        } else {
          panicked := RemoveSubscription(MemberTopic(active[i].server));
          if panicked {
            return;
          }
        }
      }
      assert active[..|active|] == active;
      panicked := false;
    }

    /** The subscription part of building the first payload. */
    method SubscribeReady(readyUsers: seq<string>, readyServers: seq<string>, readyChannels: seq<string>)
      modifies `state, `subscribed
      ensures SubsView() == ReadySubs(privateTopic, isBot, readyUsers, readyServers, readyChannels)
    {
      ResetState();
      InsertSubscription(privateTopic);
      InsertEach(readyUsers);
      InsertEach(readyServers);
      if isBot {
        InsertEach(MemberTopics(readyServers));
      }
      InsertEach(readyChannels);
    }

    method InsertEach(ids: seq<string>)
      modifies `state, `subscribed
      ensures SubsView() == Inserted(old(SubsView()), Elements(ids))
    {
      ghost var s0 := SubsView();
      for i := 0 to |ids|
        invariant SubsView() == Inserted(s0, Elements(ids[..i]))
      {
        InsertSubscription(ids[i]);
        InsertedOneMore(s0, ids, i);
      }
      assert ids[..|ids|] == ids;
    }

    // ----- Recalculating a server -----

    /** Split the cached channels of a server by visibility, walking the cache in any order. */
    method SplitOwnChannels(view: Visibility, server: string) returns (added: seq<string>, removed: seq<string>)
      ensures Lists(added, set c | c in OwnChannels(CacheView(), server) && CanView(view, CacheView(), channels[c]))
      ensures Lists(removed, set c | c in OwnChannels(CacheView(), server) && !CanView(view, CacheView(), channels[c]))
    {
      added, removed := [], [];
      var cache := CacheView();
      var rest := channels.Keys;
      while rest != {}
        invariant rest <= channels.Keys
        invariant Lists(added, set c | c in OwnChannels(cache, server) - rest && CanView(view, cache, channels[c]))
        invariant Lists(removed, set c | c in OwnChannels(cache, server) - rest && !CanView(view, cache, channels[c]))
        decreases rest
      {
        var c :| c in rest;
        rest := rest - {c};
        if channels[c].TextChannel? && channels[c].server == server {
          if CanView(view, cache, channels[c]) {
            added := Appended(added, c);
          } else {
            removed := Appended(removed, c);
          }
        }
      }
    }

    method DropOne(id: string)
      requires !state.Reset?
      modifies `channels, `state, `subscribed
      ensures !state.Reset?
      ensures SubsView() == Removed(old(SubsView()), {id})
      ensures channels == old(channels) - {id}
    {
      var panicked := RemoveSubscription(id);
      channels := channels - {id};
    }

    method DropEach(ids: seq<string>)
      requires !state.Reset?
      modifies `channels, `state, `subscribed
      ensures !state.Reset?
      ensures SubsView() == Removed(old(SubsView()), Elements(ids))
      ensures channels == old(channels) - Elements(ids)
    {
      ghost var s0 := SubsView();
      for i := 0 to |ids|
        invariant !state.Reset?
        invariant SubsView() == Removed(s0, Elements(ids[..i]))
        invariant channels == old(channels) - Elements(ids[..i])
      {
        assert Elements(ids[..i + 1]) == Elements(ids[..i]) + {ids[i]};
        assert ids[..i + 1][..i] == ids[..i];
        DropOne(ids[i]);
      }
      assert ids[..|ids|] == ids;
    }

    /** The visible ones among the stored channels asked for. */
    method FetchVisible(view: Visibility, db: Db, unknown: set<string>) returns (come: seq<string>)
      ensures Lists(come, set c | c in unknown && db.up && c in db.channels
                                 && CanView(view, CacheView(), db.channels[c]))
    {
      come := [];
      if !db.up {
        return;
      }
      var cache := CacheView();
      var rest := unknown;
      while rest != {}
        invariant rest <= unknown
        invariant Lists(come, set c | c in unknown - rest && c in db.channels && CanView(view, cache, db.channels[c]))
        decreases rest
      {
        var c :| c in rest;
        rest := rest - {c};
        if c in db.channels && CanView(view, cache, db.channels[c]) {
          come := Appended(come, c);
        }
      }
    }

    method AddOne(channel: Channel)
      modifies `channels, `state, `subscribed
      ensures SubsView() == Inserted(old(SubsView()), {channel.id})
      ensures channels == old(channels)[channel.id := channel]
    {
      channels := channels[channel.id := channel];
      InsertSubscription(channel.id);
    }

    method AddEach(ids: seq<string>, fetched: map<string, Channel>)
      requires AllKnown(ids, fetched) && forall c :: c in fetched ==> fetched[c].id == c
      modifies `channels, `state, `subscribed
      ensures SubsView() == Inserted(old(SubsView()), Elements(ids))
      ensures channels == Merged(old(channels), ids, fetched)
    {
      ghost var s0, c0 := SubsView(), channels;
      for i := 0 to |ids|
        invariant SubsView() == Inserted(s0, Elements(ids[..i]))
        invariant channels == Merged(c0, ids[..i], fetched)
      {
        assert ids[..i + 1][..i] == ids[..i];
        AddOne(fetched[ids[i]]);
        assert channels == Merged(c0, ids[..i + 1], fetched);
        InsertedOneMore(s0, ids, i);
      }
      assert ids[..|ids|] == ids;
    }

    /** Fetch the channels a server lists but the cache does not hold, and cache the visible ones. */
    method FetchUnknown(view: Visibility, db: Db, unknown: set<string>)
      returns (come: seq<string>, fetched: map<string, Channel>)
      modifies `channels, `state, `subscribed
      ensures fetched == map c | c in unknown && db.up && c in db.channels
                                 && CanView(view, old(CacheView()), db.channels[c]) :: db.channels[c]
      ensures SubsView() == Inserted(old(SubsView()), fetched.Keys)
      ensures channels == old(channels) + fetched
      ensures Lists(come, fetched.Keys) && AllKnown(come, fetched)
    {
      come := FetchVisible(view, db, unknown);
      var found := Elements(come);
      fetched := map c | c in unknown && c in db.channels && c in found :: db.channels[c];
      assert found == fetched.Keys;
      assert forall i :: 0 <= i < |come| ==> come[i] in found;
      AddEach(come, fetched);
      MergedAll(old(channels), come, fetched);
    }

    /** The work of a recalculation on a cached server. */
    method Refresh(view: Visibility, db: Db, server: string)
      returns (gone: seq<string>, come: seq<string>, fetched: map<string, Channel>)
      requires !state.Reset? && server in servers
      modifies `channels, `state, `subscribed
      ensures var r := Recalculate(old(CacheView()), view, db, server);
        && CacheView() == RecalculatedCache(old(CacheView()), r)
        && SubsView() == RecalculatedSubs(old(SubsView()), r)
        && Lists(gone, r.dropped) && fetched == r.fetched
        && Lists(come, fetched.Keys) && AllKnown(come, fetched)
    {
      ghost var r := Recalculate(CacheView(), view, db, server);
      var added;
      added, gone := SplitOwnChannels(view, server);
      var known := Elements(added) + Elements(gone);
      assert Elements(added) == r.kept && Elements(gone) == r.dropped;
      InsertEach(added);
      DropEach(gone);
      come, fetched := FetchUnknown(view, db, Elements(servers[server].channels) - known);
      assert fetched == r.fetched;
    }

    method RecalculateServer(view: Visibility, db: Db, server: string, event: Event) returns (out: Event)
      requires !state.Reset?
      modifies `channels, `state, `subscribed
      ensures var h := WithRecalculation(old(CacheView()), old(SubsView()), view, db, server);
        && CacheView() == h.cache && SubsView() == h.subs
        && ForwardedAs(out, true, event, h.forward)
    {
      if server !in servers {
        return event;
      }
      var gone, come, fetched := Refresh(view, db, server);
      out := Bundled(gone, come, fetched, event);
    }

    // ----- Handling an event -----

    method HandleChannelUpdate(view: Visibility, db: Db, event: Event) returns (out: Event)
      requires !state.Reset? && event.ChannelUpdate?
      modifies this
      ensures var h := OnChannelUpdate(old(CacheView()), old(SubsView()), view, db, event.id, event.channelPatch);
        && CacheView() == h.cache && SubsView() == h.subs && ForwardedAs(out, true, event, h.forward)
    {
      var id := event.id;
      var could := id in channels && CanView(view, CacheView(), channels[id]);
      if id in channels {
        channels := channels[id := PatchedChannel(channels[id], event.channelPatch)];
      }
      if id !in channels && id in db.channels {
        channels := channels[id := db.channels[id]];
      }
      out := event;
      if id in channels {
        var can := CanView(view, CacheView(), channels[id]);
        if can && !could {
          out := ChannelCreate(channels[id]);
          InsertSubscription(id);
        } else if !can && could {
          out := ChannelDelete(id);
          var panicked := RemoveSubscription(id);
        }
      }
    }

    method InsertOwnTopics(server: string)
      modifies `state, `subscribed
      ensures SubsView() == Inserted(old(SubsView()), OwnTopics(CacheView(), server))
    {
      InsertSubscription(server);
      if isBot {
        InsertSubscription(MemberTopic(server));
      }
    }

    method HandleServerCreate(view: Visibility, db: Db, event: Event) returns (out: Event)
      requires !state.Reset? && event.ServerCreate?
      modifies this
      ensures var h := Handle(old(CacheView()), old(SubsView()), view, db, event);
        && CacheView() == h.cache && SubsView() == h.subs && ForwardedAs(out, true, event, h.forward)
    {
      var id := event.id;
      InsertOwnTopics(id);
      servers := servers[id := event.server];
      members := members[id := Member(event.server.id, userId, [], None, true, true)];
      channels := channels + ById(event.channels);
      assert CacheView() == JoinedCache(old(CacheView()), id, event.server, event.channels);
      out := RecalculateServer(view, db, id, event);
    }

    /** Leaving a server and its deletion do the same. */
    method ForgetServer(id: string)
      requires !state.Reset?
      modifies this
      ensures CacheView() == LeftCache(old(CacheView()), id)
      ensures SubsView() == Removed(old(SubsView()), ServerTopics(old(CacheView()), id))
    {
      var panicked := RemoveSubscription(id);
      if id in servers {
        var listed := servers[id].channels;
        servers := servers - {id};
        DropEach(listed);
      } else {
        assert servers - {id} == servers;
      }
      members := members - {id};
    }

    method HandleServerChange(view: Visibility, db: Db, event: Event) returns (out: Event)
      requires !state.Reset?
      requires event.ServerUpdate? || event.ServerMemberUpdate?
      modifies this
      ensures var h := Handle(old(CacheView()), old(SubsView()), view, db, event);
        && CacheView() == h.cache && SubsView() == h.subs && ForwardedAs(out, true, event, h.forward)
    {
      out := event;
      var id := event.id;
      match event {
        case ServerUpdate(_, patch) =>
          if id in servers {
            servers := servers[id := PatchedServer(servers[id], patch)];
          }
          if patch.defaultPermissions.Some? {
            out := RecalculateServer(view, db, id, event);
          }
        case ServerMemberUpdate(_, user, patch) =>
          if user == userId {
            if id in members {
              members := members[id := PatchedMember(members[id], patch)];
            }
            if patch.roles.Some? || patch.clearRoles {
              out := RecalculateServer(view, db, id, event);
            }
          }
      }
    }

    method HandleRoleChange(view: Visibility, db: Db, event: Event) returns (out: Event)
      requires !state.Reset?
      requires event.ServerRoleUpdate? || event.ServerRoleDelete?
      modifies this
      ensures var h := Handle(old(CacheView()), old(SubsView()), view, db, event);
        && CacheView() == h.cache && SubsView() == h.subs && ForwardedAs(out, true, event, h.forward)
    {
      out := event;
      var id, role := event.id, event.role;
      if event.ServerRoleUpdate? {
        var patch := event.rolePatch;
        if id in servers && role in servers[id].roles {
          var server := servers[id];
          servers := servers[id := server.(roles := server.roles[role := PatchedRole(server.roles[role], patch)])];
        }
        if (patch.rank.Some? || patch.permissions.Some?) && id in members && role in members[id].roles {
          out := RecalculateServer(view, db, id, event);
        }
      } else {
        if id in servers {
          servers := servers[id := servers[id].(roles := servers[id].roles - {role})];
        }
        if id in members && role in members[id].roles {
          out := RecalculateServer(view, db, id, event);
        }
      }
    }

    /** Events about a single topic. */
    method HandleTopicEvent(event: Event)
      requires !state.Reset?
      requires event.ChannelCreate? || event.ChannelDelete? || event.ChannelGroupJoin?
            || event.ChannelGroupLeave? || event.UserRelationship?
      modifies this
      ensures forall view: Visibility, db: Db ::
        var h := Handle(old(CacheView()), old(SubsView()), view, db, event);
        CacheView() == h.cache && SubsView() == h.subs && h.forward == Same
    {
      match event {
        case ChannelCreate(channel) => AddOne(channel);
        case ChannelDelete(id) => DropOne(id);
        case ChannelGroupJoin(_, user) => InsertSubscription(user);
        case ChannelGroupLeave(id, user) =>
          if user == userId {
            var panicked := RemoveSubscription(id);
          } else if !CanSubscribeToUser(CacheView(), user) {
            var panicked := RemoveSubscription(user);
          }
        case UserRelationship(id, other) =>
          users := users[id := other];
          if CanSubscribeToUser(CacheView(), id) {
            InsertSubscription(id);
          } else {
            var panicked := RemoveSubscription(id);
          }
      }
    }

    /** The connection's own user must be cached, or rewriting a message's relationship aborts. */
    method HandleIncomingEvent(view: Visibility, db: Db, event: Event) returns (out: Event, send: bool)
      requires !state.Reset? && userId in users
      modifies this
      ensures var h := Handle(old(CacheView()), old(SubsView()), view, db, event);
        && CacheView() == h.cache && SubsView() == h.subs && ForwardedAs(out, send, event, h.forward)
    {
      out, send := event, true;
      match event {
        case ChannelUpdate(_, _) => out := HandleChannelUpdate(view, db, event);
        case ServerCreate(_, _, _) => out := HandleServerCreate(view, db, event);
        case ServerUpdate(_, _) => out := HandleServerChange(view, db, event);
        case ServerMemberUpdate(_, _, _) => out := HandleServerChange(view, db, event);
        case ServerRoleUpdate(_, _, _) => out := HandleRoleChange(view, db, event);
        case ServerRoleDelete(_, _) => out := HandleRoleChange(view, db, event);
        case ServerMemberLeave(id, user) =>
          if user == userId {
            ForgetServer(id);
          }
        case ServerDelete(id) => ForgetServer(id);
        case UserUpdate(eventId) =>
          if eventId.Some? {
            if eventId.value in seen {
              return event, false;
            }
            seen := Remembered(seen, eventId.value);
          }
          out := UserUpdate(None);
        case Message(author, relationship) =>
          if relationship.Some? {
            out := Message(author, Some(RelationshipWith(users[userId], author)));
          }
        case Bulk(_) =>
        case Unhandled =>
        case _ => HandleTopicEvent(event);
      }
    }
  }

  /** The event as sent on after a recalculation. */
  method Bundled(gone: seq<string>, come: seq<string>, fetched: map<string, Channel>, event: Event)
    returns (out: Event)
    requires AllKnown(come, fetched) && Lists(come, fetched.Keys)
    ensures forall r: Recalculation :: Lists(gone, r.dropped) && r.fetched == fetched ==> BulkFor(out, event, r)
  {
    var bulk := DeleteEvents(gone) + CreateEvents(come, fetched);
    if bulk == [] {
      out := event;
      assert |DeleteEvents(gone)| == 0 && |CreateEvents(come, fetched)| == 0;
      assert Elements(gone) == {} && fetched.Keys == {};
    } else {
      out := Bulk(bulk + [event]);
      assert gone != [] ==> gone[0] in Elements(gone);
      assert come != [] ==> come[0] in Elements(come);
    }
  }

  /** The map after inserting the listed channels one by one. */
  function Merged(m: map<string, Channel>, ids: seq<string>, fetched: map<string, Channel>): map<string, Channel>
    requires AllKnown(ids, fetched)
    decreases |ids|
  {
    if ids == [] then m
    else Merged(m, ids[..|ids| - 1], fetched)[ids[|ids| - 1] := fetched[ids[|ids| - 1]]]
  }

  lemma {:induction false} MergedIs(m: map<string, Channel>, ids: seq<string>, fetched: map<string, Channel>)
    requires AllKnown(ids, fetched)
    ensures Merged(m, ids, fetched) == m + (map c | c in fetched && c in ids :: fetched[c])
    decreases |ids|
  {
    if ids != [] {
      var init, last := ids[..|ids| - 1], ids[|ids| - 1];
      assert forall c :: c in ids <==> c in init || c == last;
      MergedIs(m, init, fetched);
    }
  }

  lemma MergedAll(m: map<string, Channel>, ids: seq<string>, fetched: map<string, Channel>)
    requires Elements(ids) == fetched.Keys && AllKnown(ids, fetched)
    ensures Merged(m, ids, fetched) == m + fetched
  {
    MergedIs(m, ids, fetched);
    forall c | c in fetched ensures c in ids {
      assert c in Elements(ids);
    }
    assert (map c | c in fetched && c in ids :: fetched[c]) == fetched;
  }

  function Appended(ids: seq<string>, c: string): (r: seq<string>)
    ensures Elements(r) == Elements(ids) + {c}
    ensures c !in ids && (forall i, j :: 0 <= i < j < |ids| ==> ids[i] != ids[j]) ==>
            forall i, j :: 0 <= i < j < |r| ==> r[i] != r[j]
  {
    ids + [c]
  }
}
