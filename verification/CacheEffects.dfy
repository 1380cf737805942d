/**
 What an event does to the records a connection caches: which field reads back as given, which stays, and which
 updates of users are passed on.
 */
module CacheEffects {
  import opened Models
  import opened Relations
  import opened Subscriptions
  import opened Events

  // ----- Fields of a patch -----

  /** A given value reads back, a cleared one reads as the default, any other as before. */
  ghost predicate ReadsBack<T>(after: T, given: Option<T>, cleared: bool, default: T, before: T) {
    if given.Some? then after == given.value else if cleared then after == default else after == before
  }

  lemma RecalculationKeepsRecords(cache: Cache, s: Subs, view: Visibility, db: Db, server: string)
    ensures var h := WithRecalculation(cache, s, view, db, server);
      h.cache.members == cache.members && h.cache.servers == cache.servers
  {
  }

  /** An update of the own membership: its fields read back, and other memberships and updates of others do nothing. */
  lemma MemberUpdateReadsBack(
    cache: Cache, s: Subs, view: Visibility, db: Db, id: string, user: string, p: MemberPatch)
    ensures var h := Handle(cache, s, view, db, ServerMemberUpdate(id, user, p));
      && h.cache.members.Keys == cache.members.Keys && h.cache.servers == cache.servers
      && (forall k :: k in cache.members && (k != id || user != cache.userId) ==>
            h.cache.members[k] == cache.members[k])
      && (id in cache.members && user == cache.userId ==>
            MemberReadsBack(h.cache.members[id], cache.members[id], p))
  {
    if user == cache.userId && id in cache.members {
      var after := cache.(members := cache.members[id := PatchedMember(cache.members[id], p)]);
      RecalculationKeepsRecords(after, s, view, db, id);
      assert Handle(cache, s, view, db, ServerMemberUpdate(id, user, p)).cache.members == after.members;
    }
  }

  ghost predicate MemberReadsBack(after: Member, before: Member, p: MemberPatch) {
    && after.server == before.server && after.user == before.user
    && ReadsBack(after.roles, p.roles, p.clearRoles, [], before.roles)
    && (if p.timeout.Some? then after.timeout == p.timeout
        else if p.clearTimeout then after.timeout == None else after.timeout == before.timeout)
    && ReadsBack(after.canPublish, p.canPublish, p.clearPublish, true, before.canPublish)
    && ReadsBack(after.canReceive, p.canReceive, p.clearReceive, true, before.canReceive)
  }

  lemma ServerUpdateReadsBack(cache: Cache, s: Subs, view: Visibility, db: Db, id: string, p: ServerPatch)
    ensures var h := Handle(cache, s, view, db, ServerUpdate(id, p));
      && h.cache.servers.Keys == cache.servers.Keys && h.cache.members == cache.members
      && (forall k :: k in cache.servers && k != id ==> h.cache.servers[k] == cache.servers[k])
      && (id in cache.servers ==> ServerReadsBack(h.cache.servers[id], cache.servers[id], p))
  {
    if id in cache.servers {
      var after := cache.(servers := cache.servers[id := PatchedServer(cache.servers[id], p)]);
      RecalculationKeepsRecords(after, s, view, db, id);
    }
  }

  ghost predicate ServerReadsBack(after: Server, before: Server, p: ServerPatch) {
    && after.id == before.id
    && ReadsBack(after.owner, p.owner, false, "", before.owner)
    && ReadsBack(after.channels, p.channels, false, [], before.channels)
    && ReadsBack(after.roles, p.roles, false, map[], before.roles)
    && ReadsBack(after.defaultPermissions, p.defaultPermissions, false, {}, before.defaultPermissions)
  }

  lemma RolePatchReadsBack(cache: Cache, id: string, role: string, p: RolePatch)
    ensures var after := RoleUpdatedCache(cache, id, role, p);
      && after.servers.Keys == cache.servers.Keys && after.members == cache.members
      && (forall k :: k in cache.servers && k != id ==> after.servers[k] == cache.servers[k])
      && (id in cache.servers ==> RolesReadBack(after.servers[id], cache.servers[id], role, p))
  {
  }

  /** A role update changes that role of that server, if it is known; a deletion takes it away. */
  lemma RoleUpdateReadsBack(cache: Cache, s: Subs, view: Visibility, db: Db, id: string, role: string, p: RolePatch)
    ensures var h := Handle(cache, s, view, db, ServerRoleUpdate(id, role, p));
      && h.cache.servers.Keys == cache.servers.Keys && h.cache.members == cache.members
      && (forall k :: k in cache.servers && k != id ==> h.cache.servers[k] == cache.servers[k])
      && (id in cache.servers ==> RolesReadBack(h.cache.servers[id], cache.servers[id], role, p))
  {
    RecalculationKeepsRecords(RoleUpdatedCache(cache, id, role, p), s, view, db, id);
    RolePatchReadsBack(cache, id, role, p);
  }

  ghost predicate RolesReadBack(after: Server, before: Server, role: string, p: RolePatch) {
    && after == before.(roles := after.roles) && after.roles.Keys == before.roles.Keys
    && (forall k :: k in before.roles && k != role ==> after.roles[k] == before.roles[k])
    && (role in before.roles ==>
          && ReadsBack(after.roles[role].rank, p.rank, false, 0, before.roles[role].rank)
          && ReadsBack(after.roles[role].permissions, p.permissions, false, Override({}, {}),
                       before.roles[role].permissions))
  }

  ghost predicate RoleGone(after: Server, before: Server, role: string) {
    && after == before.(roles := after.roles)
    && after.roles == map k | k in before.roles && k != role :: before.roles[k]
  }

  lemma RoleDeleteReadsBack(cache: Cache, s: Subs, view: Visibility, db: Db, id: string, role: string)
    ensures var h := Handle(cache, s, view, db, ServerRoleDelete(id, role));
      && h.cache.servers.Keys == cache.servers.Keys && h.cache.members == cache.members
      && (forall k :: k in cache.servers && k != id ==> h.cache.servers[k] == cache.servers[k])
      && (id in cache.servers ==> RoleGone(h.cache.servers[id], cache.servers[id], role))
  {
    var after := RoleDeletedCache(cache, id, role);
    RecalculationKeepsRecords(after, s, view, db, id);
    assert Handle(cache, s, view, db, ServerRoleDelete(id, role)).cache.servers == after.servers;
  }

  /** A channel update patches what the kind of channel has. */
  lemma ChannelUpdateReadsBack(cache: Cache, s: Subs, view: Visibility, db: Db, id: string, p: ChannelPatch)
    requires id in cache.channels
    ensures var h := Handle(cache, s, view, db, ChannelUpdate(id, p));
      id in h.cache.channels && ChannelReadsBack(h.cache.channels[id], cache.channels[id], p)
  {
  }

  ghost predicate ChannelReadsBack(after: Channel, before: Channel, p: ChannelPatch) {
    match before
    case Group(_, owner, _, permissions, moderators) =>
      && after.Group? && after.id == before.id && after.recipients == before.recipients
      && ReadsBack(after.owner, p.owner, false, "", owner)
      && after.permissions == (if p.permissions.Some? then p.permissions else permissions)
      && ReadsBack(after.moderators, p.moderators, false, [], moderators)
    case TextChannel(_, _, defaults, rolePermissions) =>
      && after.TextChannel? && after.id == before.id && after.server == before.server
      && after.defaults == (if p.defaults.Some? then p.defaults else if p.clearDefaults then None else defaults)
      && ReadsBack(after.rolePermissions, p.rolePermissions, false, map[], rolePermissions)
    case _ => after == before
  }

  /** A join caches the server and a plain membership of one's own, besides the channels it brings. */
  lemma JoinReadsBack(cache: Cache, s: Subs, view: Visibility, db: Db, e: Event)
    requires e.ServerCreate?
    ensures var h := Handle(cache, s, view, db, e);
      && h.cache.servers == cache.servers[e.id := e.server]
      && h.cache.members == cache.members[e.id := Member(e.server.id, cache.userId, [], None, true, true)]
  {
  }

  lemma {:induction false} LastOfIdCounts(channels: seq<Channel>, i: nat)
    requires i < |channels| && forall j :: i < j < |channels| ==> channels[j].id != channels[i].id
    ensures channels[i].id in ById(channels) && ById(channels)[channels[i].id] == channels[i]
    decreases |channels|
  {
    if i < |channels| - 1 {
      var init := channels[..|channels| - 1];
      assert init[i] == channels[i] && channels[|channels| - 1].id != channels[i].id;
      LastOfIdCounts(init, i);
    }
  }

  /** A created channel is cached as it is given, a deleted one is gone; no other channel changes. */
  lemma CreateAndDelete(cache: Cache, s: Subs, view: Visibility, db: Db, channel: Channel)
    ensures Handle(cache, s, view, db, ChannelCreate(channel)).cache.channels == cache.channels[channel.id := channel]
    ensures Handle(cache, s, view, db, ChannelDelete(channel.id)).cache.channels == cache.channels - {channel.id}
  {
  }

  /** Leaving a server forgets it, one's membership in it and the channels it lists, and nothing of other servers. */
  lemma LeaveForgets(cache: Cache, s: Subs, view: Visibility, db: Db, id: string, k: string)
    ensures var after := Handle(cache, s, view, db, ServerMemberLeave(id, cache.userId)).cache;
      && after == Handle(cache, s, view, db, ServerDelete(id)).cache
      && id !in after.servers && id !in after.members
      && (k != id ==> (k in after.servers <==> k in cache.servers) && (k in after.members <==> k in cache.members))
      && (k != id && k in cache.servers ==> after.servers[k] == cache.servers[k])
      && (k != id && k in cache.members ==> after.members[k] == cache.members[k])
      && (k in after.channels <==>
            k in cache.channels && !(id in cache.servers && k in cache.servers[id].channels))
      && (k in after.channels ==> after.channels[k] == cache.channels[k])
      && after.users == cache.users
  {
  }

  /** A listed channel is fetched if it is stored and visible to a cache without the channels just dropped. */
  lemma FetchedAfterDropping(cache: Cache, s: Subs, view: Visibility, db: Db, id: string, left: Cache, c: string)
    requires id in cache.servers && c in cache.servers[id].channels && c !in cache.channels
    requires left == cache.(channels := map k | k in cache.channels
      && (cache.channels[k].TextChannel? && cache.channels[k].server == id ==> view(cache, cache.channels[k]))
      :: cache.channels[k])
    ensures var h := WithRecalculation(cache, s, view, db, id);
      c in h.cache.channels <==> db.up && c in db.channels && CanView(view, left, db.channels[c])
  {
    var r := Recalculate(cache, view, db, id);
    assert left.channels == cache.channels - r.dropped;
  }

  // ----- Users -----

  predicate Following(status: Relationship) {
    status == Friend || status == Incoming || status == Outgoing || status == Self
  }

  ghost predicate FollowedBy(us: User, channels: map<string, Channel>, id: string) {
    || us.id == id
    || (exists i: nat :: FirstAt(us.relations, id, i) && Following(us.relations[i].status))
    || (exists c :: c in channels && (channels[c].DirectMessage? || channels[c].Group?) && id in channels[c].recipients)
  }

  /** Another user is followed by themselves, friends, those with a request pending, and those who share a channel. */
  lemma CanSubscribeIff(cache: Cache, id: string)
    ensures CanSubscribeToUser(cache, id) <==>
      cache.userId in cache.users && FollowedBy(cache.users[cache.userId], cache.channels, id)
  {
    if cache.userId in cache.users {
      var us := cache.users[cache.userId];
      forall i: nat ensures FirstAt(us.relations, id, i) ==> RelationIn(us.relations, id) == us.relations[i].status {
        FirstRelationCounts(us.relations, id, i);
      }
      if exists j :: 0 <= j < |us.relations| && us.relations[j].id == id {
        var i := SomeFirst(us.relations, id);
      } else {
        FirstRelationCounts(us.relations, id, 0);
      }
    }
  }

  /** So after news of a relationship the other user is followed exactly then, judged with the news. */
  lemma FollowedIff(cache: Cache, s: Subs, view: Visibility, db: Db, id: string, other: User)
    ensures var h := Handle(cache, s, view, db, UserRelationship(id, other));
      && h.cache.users == cache.users[id := other]
      && (id in h.subs.subscribed <==>
            cache.userId in h.cache.users && FollowedBy(h.cache.users[cache.userId], cache.channels, id))
  {
    CanSubscribeIff(cache.(users := cache.users[id := other]), id);
  }

  /** Leaving a group ends it for oneself; somebody else is followed on exactly if there is another reason to. */
  lemma GroupLeaveIff(cache: Cache, s: Subs, view: Visibility, db: Db, id: string, user: string)
    requires user in s.subscribed && user != id
    ensures var h := Handle(cache, s, view, db, ChannelGroupLeave(id, user));
      && (user != cache.userId ==>
            (user in h.subs.subscribed <==>
               cache.userId in cache.users && FollowedBy(cache.users[cache.userId], cache.channels, user)))
      && (user == cache.userId ==> user in h.subs.subscribed && id !in h.subs.subscribed)
  {
    CanSubscribeIff(cache, user);
  }

  /** A message's relationship is told from the receiver's side: by the first entry about its author. */
  lemma MessageTellsOwnRelationship(
    cache: Cache, s: Subs, view: Visibility, db: Db, author: string, told: Relationship, i: nat)
    requires cache.userId in cache.users
    ensures var h, us := Handle(cache, s, view, db, Message(author, Some(told))), cache.users[cache.userId];
      && h.cache == cache && h.subs == s && h.forward.Instead? && h.forward.event.Message?
      && h.forward.event.author == author && h.forward.event.relationship.Some?
      && (us.id == author ==> h.forward.event.relationship.value == Self)
      && (us.id != author && FirstAt(us.relations, author, i) ==>
            h.forward.event.relationship.value == us.relations[i].status)
      && (us.id != author && (forall j :: 0 <= j < |us.relations| ==> us.relations[j].id != author) ==>
            h.forward.event.relationship.value == Unrelated)
    ensures Handle(cache, s, view, db, Message(author, None)) == Handled(cache, s, Same)
  {
    FirstRelationCounts(cache.users[cache.userId].relations, author, i);
  }

  // ----- Updates of users -----

  datatype Arrival = Arrival(event: Event, view: Visibility, db: Db)

  /** The cache and the topics after a number of events, whatever they are. */
  function AfterAll(cache: Cache, s: Subs, arrivals: seq<Arrival>): Handled
    decreases |arrivals|
  {
    if arrivals == [] then Handled(cache, s, Same)
    else
      var h, a := AfterAll(cache, s, arrivals[..|arrivals| - 1]), arrivals[|arrivals| - 1];
      Handle(h.cache, h.subs, a.view, a.db, a.event)
  }

  /** The ids of the user updates passed on so far. */
  function PassedOn(cache: Cache, s: Subs, arrivals: seq<Arrival>): seq<string>
    decreases |arrivals|
  {
    if arrivals == [] then []
    else
      var e := arrivals[|arrivals| - 1].event;
      var before := PassedOn(cache, s, arrivals[..|arrivals| - 1]);
      if e.UserUpdate? && e.eventId.Some? && AfterAll(cache, s, arrivals).forward != Withheld
      then before + [e.eventId.value] else before
  }

  /** The last twenty ids passed on, newest first. */
  ghost predicate LastTwenty(seen: seq<string>, passed: seq<string>) {
    && |seen| == (if |passed| < 20 then |passed| else 20)
    && forall i :: 0 <= i < |seen| ==> seen[i] == passed[|passed| - 1 - i]
  }

  lemma OtherEventsKeepSeen(cache: Cache, s: Subs, view: Visibility, db: Db, e: Event)
    requires !e.UserUpdate? || e.eventId.None?
    ensures Handle(cache, s, view, db, e).cache.seen == cache.seen
  {
  }

  ghost predicate AmongLastTwenty(passed: seq<string>, id: string) {
    exists k :: 0 <= k < |passed| && |passed| - 20 <= k && passed[k] == id
  }

  lemma SeenIff(seen: seq<string>, passed: seq<string>, id: string)
    requires LastTwenty(seen, passed)
    ensures id in seen <==> AmongLastTwenty(passed, id)
  {
    if id in seen {
      var i :| 0 <= i < |seen| && seen[i] == id;
      assert passed[|passed| - 1 - i] == id;
    }
    if k :| 0 <= k < |passed| && |passed| - 20 <= k && passed[k] == id {
      assert seen[|passed| - 1 - k] == passed[|passed| - 1 - (|passed| - 1 - k)];
    }
  }

  lemma UserUpdateSeen(cache: Cache, s: Subs, view: Visibility, db: Db, id: string, passed: seq<string>)
    requires LastTwenty(cache.seen, passed)
    ensures var h := Handle(cache, s, view, db, UserUpdate(Some(id)));
      && (h.forward == Withheld <==> AmongLastTwenty(passed, id))
      && (h.forward == Withheld ==> h.cache == cache)
      && (h.forward != Withheld ==> LastTwenty(h.cache.seen, passed + [id]) && h.forward == Instead(UserUpdate(None)))
  {
    SeenIff(cache.seen, passed, id);
  }

  lemma {:induction false} SeenAreLastTwenty(cache: Cache, s: Subs, arrivals: seq<Arrival>)
    requires cache.seen == []
    ensures LastTwenty(AfterAll(cache, s, arrivals).cache.seen, PassedOn(cache, s, arrivals))
    decreases |arrivals|
  {
    if arrivals != [] {
      var init, a := arrivals[..|arrivals| - 1], arrivals[|arrivals| - 1];
      SeenAreLastTwenty(cache, s, init);
      var h := AfterAll(cache, s, init);
      if a.event.UserUpdate? && a.event.eventId.Some? {
        UserUpdateSeen(h.cache, h.subs, a.view, a.db, a.event.eventId.value, PassedOn(cache, s, init));
      } else {
        OtherEventsKeepSeen(h.cache, h.subs, a.view, a.db, a.event);
      }
    }
  }

  /**
   In every run of events an update of a user is withheld if and only if its id is among the last twenty that were
   passed on, and otherwise passed on without its id.
   */
  lemma WithheldIff(
    cache: Cache, s: Subs, arrivals: seq<Arrival>, h: Handled, view: Visibility, db: Db, id: string)
    requires cache.seen == [] && h == AfterAll(cache, s, arrivals)
    ensures var next := Handle(h.cache, h.subs, view, db, UserUpdate(Some(id)));
      && (next.forward == Withheld <==> AmongLastTwenty(PassedOn(cache, s, arrivals), id))
      && (next.forward != Withheld ==> next.forward == Instead(UserUpdate(None)))
  {
    SeenAreLastTwenty(cache, s, arrivals);
    UserUpdateSeen(h.cache, h.subs, view, db, id, PassedOn(cache, s, arrivals));
  }
}
