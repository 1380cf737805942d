/**
 Events delivered to a client connection and their effect on its cache and its
 subscriptions, as a function of the state before.
 */
module Events {
  import opened Models
  import opened Subscriptions

  const SEEN_EVENTS := 20

  datatype Cache = Cache(
    userId: string,
    isBot: bool,
    users: map<string, User>,
    channels: map<string, Channel>,
    members: map<string, Member>,
    servers: map<string, Server>,
    seen: seq<string>)

  /** Partial records, reduced to the fields the handler or the permission query reads. */
  datatype ChannelPatch = ChannelPatch(
    clearDefaults: bool, defaults: Option<Override>, rolePermissions: Option<map<string, Override>>,
    owner: Option<string>, permissions: Option<Mask>, moderators: Option<seq<string>>)
  datatype ServerPatch = ServerPatch(
    owner: Option<string>, channels: Option<seq<string>>,
    roles: Option<map<string, Role>>, defaultPermissions: Option<Mask>)
  datatype MemberPatch = MemberPatch(
    clearRoles: bool, clearTimeout: bool, clearPublish: bool, clearReceive: bool,
    roles: Option<seq<string>>, timeout: Option<int>, canPublish: Option<bool>, canReceive: Option<bool>)
  datatype RolePatch = RolePatch(rank: Option<int>, permissions: Option<Override>)

  datatype Event =
    | ChannelCreate(channel: Channel)
    | ChannelUpdate(id: string, channelPatch: ChannelPatch)
    | ChannelDelete(id: string)
    | ChannelGroupJoin(id: string, user: string)
    | ChannelGroupLeave(id: string, user: string)
    | ServerCreate(id: string, server: Server, channels: seq<Channel>)
    | ServerUpdate(id: string, serverPatch: ServerPatch)
    | ServerMemberLeave(id: string, user: string)
    | ServerDelete(id: string)
    | ServerMemberUpdate(id: string, user: string, memberPatch: MemberPatch)
    | ServerRoleUpdate(id: string, role: string, rolePatch: RolePatch)
    | ServerRoleDelete(id: string, role: string)
    | UserUpdate(eventId: Option<string>)
    | UserRelationship(id: string, other: User)
    | Message(author: string, relationship: Option<Relationship>)
    | Bulk(v: seq<Event>)
    | Unhandled

  /** The stored channels, keyed by their id, and whether a bulk fetch succeeds. */
  datatype ChannelTable = ChannelTable(channels: map<string, Channel>, up: bool)

  type Db = t: ChannelTable | forall c :: c in t.channels ==> t.channels[c].id == c
    witness ChannelTable(map[], true)

  /** Answers whether the user may view a text channel, given the cache. */
  type Visibility = (Cache, Channel) -> bool

  predicate CanView(view: Visibility, cache: Cache, channel: Channel) {
    channel.TextChannel? ==> view(cache, channel)
  }

  // ----- Patches -----

  function Or<T>(o: Option<T>, otherwise: T): T {
    if o.Some? then o.value else otherwise
  }

  function PatchedChannel(c: Channel, p: ChannelPatch): (r: Channel)
    ensures r.id == c.id && (r.TextChannel? <==> c.TextChannel?)
    ensures c.TextChannel? ==> r.server == c.server
  {
    if c.Group? then
      c.(owner := Or(p.owner, c.owner),
         permissions := if p.permissions.Some? then p.permissions else c.permissions,
         moderators := Or(p.moderators, c.moderators))
    else if !c.TextChannel? then c
    else
      var cleared := if p.clearDefaults then None else c.defaults;
      c.(defaults := if p.defaults.Some? then p.defaults else cleared,
         rolePermissions := Or(p.rolePermissions, c.rolePermissions))
  }

  function PatchedServer(s: Server, p: ServerPatch): Server {
    s.(owner := Or(p.owner, s.owner), channels := Or(p.channels, s.channels),
       roles := Or(p.roles, s.roles), defaultPermissions := Or(p.defaultPermissions, s.defaultPermissions))
  }

  function PatchedMember(m: Member, p: MemberPatch): Member {
    var roles := if p.clearRoles then [] else m.roles;
    var timeout := if p.clearTimeout then None else m.timeout;
    m.(roles := Or(p.roles, roles), timeout := if p.timeout.Some? then p.timeout else timeout,
       canPublish := Or(p.canPublish, p.clearPublish || m.canPublish),
       canReceive := Or(p.canReceive, p.clearReceive || m.canReceive))
  }

  function PatchedRole(r: Role, p: RolePatch): Role {
    Role(Or(p.rank, r.rank), Or(p.permissions, r.permissions))
  }

  // ----- Users -----

  function RelationshipWith(user: User, id: string): Relationship {
    if user.id == id then Self else RelationIn(user.relations, id)
  }

  predicate SharesChannel(channels: map<string, Channel>, id: string) {
    exists c :: c in channels && (channels[c].DirectMessage? || channels[c].Group?) && id in channels[c].recipients
  }

  predicate CanSubscribeToUser(cache: Cache, id: string) {
    cache.userId in cache.users &&
    var r := RelationshipWith(cache.users[cache.userId], id);
    r.Friend? || r.Incoming? || r.Outgoing? || r.Self? || SharesChannel(cache.channels, id)
  }

  // ----- Re-determining a server's visible channels -----

  /** What one recalculation drops and fetches. */
  datatype Recalculation = Recalculation(kept: set<string>, dropped: set<string>, fetched: map<string, Channel>)

  function OwnChannels(cache: Cache, server: string): set<string> {
    set c | c in cache.channels && cache.channels[c].TextChannel? && cache.channels[c].server == server
  }

  function Recalculate(cache: Cache, view: Visibility, db: Db, server: string): (r: Recalculation)
    requires server in cache.servers
    ensures r.kept + r.dropped == OwnChannels(cache, server) && r.kept !! r.dropped
    ensures r.fetched.Keys !! OwnChannels(cache, server)
    ensures r.fetched.Keys <= Elements(cache.servers[server].channels)
  {
    var own := OwnChannels(cache, server);
    var kept := set c | c in own && CanView(view, cache, cache.channels[c]);
    var dropped := own - kept;
    var unknown := Elements(cache.servers[server].channels) - own;
    var left := cache.(channels := cache.channels - dropped);
    Recalculation(kept, dropped,
      map c | c in unknown && db.up && c in db.channels && CanView(view, left, db.channels[c]) :: db.channels[c])
  }

  function RecalculatedCache(cache: Cache, r: Recalculation): Cache {
    cache.(channels := cache.channels - r.dropped + r.fetched)
  }

  function RecalculatedSubs(s: Subs, r: Recalculation): Subs {
    Inserted(Removed(Inserted(s, r.kept), r.dropped), r.fetched.Keys)
  }

  // ----- The handler -----

  /** What is sent on in place of the event. */
  datatype Forward =
    | Same
    | Instead(event: Event)
    | Recalculated(r: Recalculation)
    | Withheld

  datatype Handled = Handled(cache: Cache, subs: Subs, forward: Forward)

  function WithRecalculation(cache: Cache, s: Subs, view: Visibility, db: Db, server: string): Handled {
    if server !in cache.servers then Handled(cache, s, Same)
    else
      var r := Recalculate(cache, view, db, server);
      Handled(RecalculatedCache(cache, r), RecalculatedSubs(s, r), Recalculated(r))
  }

  /** The channel list of an event as a map; a later entry replaces an earlier one. */
  function ById(channels: seq<Channel>): (m: map<string, Channel>)
    ensures forall c :: c in m ==> m[c].id == c && m[c] in channels
    decreases |channels|
  {
    if channels == [] then map[]
    else
      var last := channels[|channels| - 1];
      ById(channels[..|channels| - 1])[last.id := last]
  }

  function OwnTopics(cache: Cache, server: string): set<string> {
    if cache.isBot then {server, MemberTopic(server)} else {server}
  }

  function JoinedCache(cache: Cache, id: string, server: Server, channels: seq<Channel>): Cache {
    cache.(servers := cache.servers[id := server],
           members := cache.members[id := Member(server.id, cache.userId, [], None, true, true)],
           channels := cache.channels + ById(channels))
  }

  /** Topics of a server and of the channels it lists, if it is cached. */
  function ServerTopics(cache: Cache, id: string): set<string> {
    {id} + (if id in cache.servers then Elements(cache.servers[id].channels) else {})
  }

  function LeftCache(cache: Cache, id: string): Cache {
    cache.(servers := cache.servers - {id},
           channels := cache.channels - (if id in cache.servers then Elements(cache.servers[id].channels) else {}),
           members := cache.members - {id})
  }

  /** The cache after a channel update: patch what is known, fetch what is not. */
  function UpdatedCache(cache: Cache, db: Db, id: string, patch: ChannelPatch): Cache {
    if id in cache.channels then
      cache.(channels := cache.channels[id := PatchedChannel(cache.channels[id], patch)])
    else if id in db.channels then
      cache.(channels := cache.channels[id := db.channels[id]])
    else cache
  }

  function OnChannelUpdate(cache: Cache, s: Subs, view: Visibility, db: Db, id: string, patch: ChannelPatch): Handled {
    var could := id in cache.channels && CanView(view, cache, cache.channels[id]);
    var after := UpdatedCache(cache, db, id, patch);
    if id !in after.channels then Handled(after, s, Same)
    else
      var can := CanView(view, after, after.channels[id]);
      if can == could then Handled(after, s, Same)
      else if can then Handled(after, Inserted(s, {id}), Instead(ChannelCreate(after.channels[id])))
      else Handled(after, Removed(s, {id}), Instead(ChannelDelete(id)))
  }

  function OnUserRelationship(cache: Cache, s: Subs, id: string, other: User): Handled {
    var after := cache.(users := cache.users[id := other]);
    Handled(after, if CanSubscribeToUser(after, id) then Inserted(s, {id}) else Removed(s, {id}), Same)
  }

  /** The cache after a role changed, and whether the member's visible channels may have. */
  function RoleUpdatedCache(cache: Cache, id: string, role: string, patch: RolePatch): Cache {
    if id in cache.servers && role in cache.servers[id].roles then
      var server := cache.servers[id];
      cache.(servers := cache.servers[id :=
        server.(roles := server.roles[role := PatchedRole(server.roles[role], patch)])])
    else cache
  }

  function RoleDeletedCache(cache: Cache, id: string, role: string): Cache {
    if id in cache.servers then
      cache.(servers := cache.servers[id := cache.servers[id].(roles := cache.servers[id].roles - {role})])
    else cache
  }

  predicate HoldsRole(cache: Cache, id: string, role: string) {
    id in cache.members && role in cache.members[id].roles
  }

  function Remembered(seen: seq<string>, id: string): seq<string> {
    var all := [id] + seen;
    if |all| <= SEEN_EVENTS then all else all[..SEEN_EVENTS]
  }

  function Handle(cache: Cache, s: Subs, view: Visibility, db: Db, e: Event): Handled {
    match e
    case ChannelCreate(channel) =>
      Handled(cache.(channels := cache.channels[channel.id := channel]), Inserted(s, {channel.id}), Same)
    case ChannelUpdate(id, patch) =>
      OnChannelUpdate(cache, s, view, db, id, patch)
    case ChannelDelete(id) =>
      Handled(cache.(channels := cache.channels - {id}), Removed(s, {id}), Same)
    case ChannelGroupJoin(_, user) =>
      Handled(cache, Inserted(s, {user}), Same)
    case ChannelGroupLeave(id, user) =>
      Handled(cache,
        if user == cache.userId then Removed(s, {id})
        else if !CanSubscribeToUser(cache, user) then Removed(s, {user})
        else s, Same)
    case ServerCreate(id, server, channels) =>
      WithRecalculation(JoinedCache(cache, id, server, channels), Inserted(s, OwnTopics(cache, id)), view, db, id)
    case ServerUpdate(id, patch) =>
      var after := if id in cache.servers
        then cache.(servers := cache.servers[id := PatchedServer(cache.servers[id], patch)]) else cache;
      if patch.defaultPermissions.Some? then WithRecalculation(after, s, view, db, id) else Handled(after, s, Same)
    case ServerMemberLeave(id, user) =>
      if user == cache.userId then Handled(LeftCache(cache, id), Removed(s, ServerTopics(cache, id)), Same)
      else Handled(cache, s, Same)
    case ServerDelete(id) =>
      Handled(LeftCache(cache, id), Removed(s, ServerTopics(cache, id)), Same)
    case ServerMemberUpdate(id, user, patch) =>
      if user != cache.userId then Handled(cache, s, Same)
      else
        var after := if id in cache.members
          then cache.(members := cache.members[id := PatchedMember(cache.members[id], patch)]) else cache;
        if patch.roles.Some? || patch.clearRoles then WithRecalculation(after, s, view, db, id)
        else Handled(after, s, Same)
    case ServerRoleUpdate(id, role, patch) =>
      var after := RoleUpdatedCache(cache, id, role, patch);
      if (patch.rank.Some? || patch.permissions.Some?) && HoldsRole(after, id, role)
      then WithRecalculation(after, s, view, db, id) else Handled(after, s, Same)
    case ServerRoleDelete(id, role) =>
      var after := RoleDeletedCache(cache, id, role);
      if HoldsRole(after, id, role) then WithRecalculation(after, s, view, db, id) else Handled(after, s, Same)
    case UserUpdate(eventId) =>
      if eventId.None? then Handled(cache, s, Instead(UserUpdate(None)))
      else if eventId.value in cache.seen then Handled(cache, s, Withheld)
      else Handled(cache.(seen := Remembered(cache.seen, eventId.value)), s, Instead(UserUpdate(None)))
    case UserRelationship(id, other) =>
      OnUserRelationship(cache, s, id, other)
    case Message(author, relationship) =>
      Handled(cache, s, if relationship.Some? && cache.userId in cache.users then
        Instead(Message(author, Some(RelationshipWith(cache.users[cache.userId], author)))) else Same)
    case Bulk(_) => Handled(cache, s, Same)
    case Unhandled => Handled(cache, s, Same)
  }

  lemma RecalculationKeepsUsers(cache: Cache, s: Subs, view: Visibility, db: Db, server: string)
    ensures var h := WithRecalculation(cache, s, view, db, server);
      h.cache.userId == cache.userId && h.cache.users == cache.users
  {
  }

  predicate MayRecalculate(e: Event) {
    e.ServerCreate? || e.ServerUpdate? || e.ServerMemberUpdate? || e.ServerRoleUpdate? || e.ServerRoleDelete?
  }

  lemma SelfStaysOnJoin(cache: Cache, s: Subs, view: Visibility, db: Db, e: Event)
    requires e.ServerCreate?
    ensures var h := Handle(cache, s, view, db, e); h.cache.userId == cache.userId && h.cache.users == cache.users
  {
    var joined := JoinedCache(cache, e.id, e.server, e.channels);
    RecalculationKeepsUsers(joined, Inserted(s, OwnTopics(cache, e.id)), view, db, e.id);
  }

  lemma SelfStaysOnPatch(cache: Cache, s: Subs, view: Visibility, db: Db, e: Event)
    requires e.ServerUpdate? || e.ServerMemberUpdate?
    ensures var h := Handle(cache, s, view, db, e); h.cache.userId == cache.userId && h.cache.users == cache.users
  {
    forall after: Cache
      ensures var h := WithRecalculation(after, s, view, db, e.id);
        h.cache.userId == after.userId && h.cache.users == after.users
    {
      RecalculationKeepsUsers(after, s, view, db, e.id);
    }
  }

  lemma SelfStaysOnRole(cache: Cache, s: Subs, view: Visibility, db: Db, e: Event)
    requires e.ServerRoleUpdate? || e.ServerRoleDelete?
    ensures var h := Handle(cache, s, view, db, e); h.cache.userId == cache.userId && h.cache.users == cache.users
  {
    var after := if e.ServerRoleUpdate? then RoleUpdatedCache(cache, e.id, e.role, e.rolePatch)
                 else RoleDeletedCache(cache, e.id, e.role);
    RecalculationKeepsUsers(after, s, view, db, e.id);
  }

  lemma SelfStaysOnOtherEvent(cache: Cache, s: Subs, view: Visibility, db: Db, e: Event)
    requires cache.userId in cache.users && !MayRecalculate(e)
    ensures var h := Handle(cache, s, view, db, e); h.cache.userId == cache.userId && cache.userId in h.cache.users
  {
  }

  /** The connection's own user stays cached. */
  lemma SelfStaysCached(cache: Cache, s: Subs, view: Visibility, db: Db, e: Event)
    requires cache.userId in cache.users
    ensures var h := Handle(cache, s, view, db, e); h.cache.userId == cache.userId && cache.userId in h.cache.users
  {
    if e.ServerCreate? {
      SelfStaysOnJoin(cache, s, view, db, e);
    } else if e.ServerUpdate? || e.ServerMemberUpdate? {
      SelfStaysOnPatch(cache, s, view, db, e);
    } else if e.ServerRoleUpdate? || e.ServerRoleDelete? {
      SelfStaysOnRole(cache, s, view, db, e);
    } else {
      SelfStaysOnOtherEvent(cache, s, view, db, e);
    }
  }

  // ----- Recalculation: what it leaves behind -----

  /** After a recalculation the server's cached channels are exactly the kept and the fetched ones, all subscribed. */
  lemma RecalculationResult(cache: Cache, s: Subs, view: Visibility, db: Db, server: string)
    requires server in cache.servers
    ensures var r := Recalculate(cache, view, db, server);
      var h := WithRecalculation(cache, s, view, db, server);
      && OwnChannels(h.cache, server) ==
           r.kept + (set c | c in r.fetched && r.fetched[c].TextChannel? && r.fetched[c].server == server)
      && (forall c :: c in r.kept ==>
            && c in h.subs.subscribed && h.cache.channels[c] == cache.channels[c]
            && CanView(view, cache, cache.channels[c]))
      && (forall c :: c in r.fetched ==> c in h.subs.subscribed && h.cache.channels[c] == r.fetched[c])
      && (forall c :: c in r.dropped ==>
            c !in h.cache.channels && c !in h.subs.subscribed && !CanView(view, cache, cache.channels[c]))
      && (forall c :: c !in OwnChannels(cache, server) && c !in r.fetched ==>
            && (c in h.cache.channels <==> c in cache.channels)
            && (c in cache.channels ==> h.cache.channels[c] == cache.channels[c])
            && (c in h.subs.subscribed <==> c in s.subscribed))
  {
  }

  // ----- Which events put an id on both sides of a change -----

  /** The only way: joining a server whose own topic is also the id of one of its invisible channels. */
  predicate JoinClash(cache: Cache, s: Subs, view: Visibility, e: Event) {
    e.ServerCreate? &&
    var joined := JoinedCache(cache, e.id, e.server, e.channels);
    exists topic :: topic in OwnTopics(cache, e.id) && topic !in s.subscribed
      && topic in OwnChannels(joined, e.id) && !CanView(view, joined, joined.channels[topic])
  }

  lemma RecalculationKeepsTrack(base: set<string>, s: Subs, r: Recalculation)
    requires Tracks(base, s)
    ensures Tracks(base, RecalculatedSubs(s, r))
  {
    var s1 := Inserted(s, r.kept);
    var s2 := Removed(s1, r.dropped);
    InsertionKeepsTrack(base, s, r.kept);
    RemovalKeepsTrack(base, s1, r.dropped);
    InsertionKeepsTrack(base, s2, r.fetched.Keys);
  }

  /** Whatever the event, the new change still leads from the flushed set to the local one. */
  lemma HandlingKeepsTrack(base: set<string>, cache: Cache, s: Subs, view: Visibility, db: Db, e: Event)
    requires Tracks(base, s)
    ensures Tracks(base, Handle(cache, s, view, db, e).subs)
  {
    forall ids: set<string> ensures Tracks(base, Inserted(s, ids)) && Tracks(base, Removed(s, ids)) {
      InsertionKeepsTrack(base, s, ids);
      RemovalKeepsTrack(base, s, ids);
    }
    forall r: Recalculation ensures Tracks(base, RecalculatedSubs(s, r)) {
      RecalculationKeepsTrack(base, s, r);
    }
    if e.ServerCreate? {
      var s' := Inserted(s, OwnTopics(cache, e.id));
      forall r: Recalculation ensures Tracks(base, RecalculatedSubs(s', r)) {
        RecalculationKeepsTrack(base, s', r);
      }
    }
  }

  lemma RecalculationDisjoint(cache: Cache, s: Subs, view: Visibility, db: Db, server: string)
    requires !s.reset && s.remove == {}
    ensures var h := WithRecalculation(cache, s, view, db, server);
      h.subs.add !! h.subs.remove <==>
        (server in cache.servers ==> s.add * s.subscribed !! Recalculate(cache, view, db, server).dropped)
  {
    if server in cache.servers {
      var r := Recalculate(cache, view, db, server);
      var h := RecalculatedSubs(s, r);
      assert h.remove == r.dropped * (s.subscribed + r.kept) == r.dropped * s.subscribed;
      assert forall c :: c in r.dropped ==> c !in r.kept && c !in r.fetched;
    }
  }

  /** Starting from a flushed state, an event leaves a contradictory change exactly in the clash above. */
  lemma EventDisjointIff(cache: Cache, s: Subs, view: Visibility, db: Db, e: Event)
    requires !s.reset && s.add == {} && s.remove == {}
    ensures var h := Handle(cache, s, view, db, e);
      h.subs.add !! h.subs.remove <==> !JoinClash(cache, s, view, e)
  {
    if e.ServerCreate? {
      JoinDisjointIff(cache, s, view, db, e);
    } else if e.ServerUpdate? || e.ServerMemberUpdate? || e.ServerRoleUpdate? || e.ServerRoleDelete? {
      forall after: Cache ensures
        var h := WithRecalculation(after, s, view, db, e.id); h.subs.add !! h.subs.remove
      {
        RecalculationDisjoint(after, s, view, db, e.id);
      }
    }
  }

  lemma JoinDisjointIff(cache: Cache, s: Subs, view: Visibility, db: Db, e: Event)
    requires e.ServerCreate? && !s.reset && s.add == {} && s.remove == {}
    ensures var h := Handle(cache, s, view, db, e);
      h.subs.add !! h.subs.remove <==> !JoinClash(cache, s, view, e)
  {
    var joined := JoinedCache(cache, e.id, e.server, e.channels);
    var s' := Inserted(s, OwnTopics(cache, e.id));
    RecalculationDisjoint(joined, s', view, db, e.id);
    var r := Recalculate(joined, view, db, e.id);
    assert s'.add * s'.subscribed == OwnTopics(cache, e.id) - s.subscribed;
    assert forall c :: c in r.dropped <==> c in OwnChannels(joined, e.id) && !CanView(view, joined, joined.channels[c]);
  }

  // ----- Leaving a server -----

  /** Everything a connection may be subscribed to because of a server. */
  function TopicsAbout(cache: Cache, id: string): set<string> {
    {id, MemberTopic(id)} +
    set c | c in cache.channels && cache.channels[c].TextChannel? && cache.channels[c].server == id :: c
  }

  /**
   Leaving a server, or its deletion, ends all that was subscribed because of it if and only if the cached
   server lists it: a bot's member topic stays, and so does a cached channel the server does not list.
   */
  lemma LeavingEndsAllIff(cache: Cache, s: Subs, view: Visibility, db: Db, id: string)
    ensures var h := Handle(cache, s, view, db, ServerDelete(id));
      && h.subs.subscribed == s.subscribed - ServerTopics(cache, id)
      && (TopicsAbout(cache, id) !! h.subs.subscribed <==>
            TopicsAbout(cache, id) * s.subscribed <= ServerTopics(cache, id))
      && (forall c :: c in h.cache.channels <==>
            c in cache.channels && !(id in cache.servers && c in cache.servers[id].channels))
      && (MemberTopic(id) in h.subs.subscribed <==>
            MemberTopic(id) in s.subscribed && MemberTopic(id) !in ServerTopics(cache, id))
    ensures Handle(cache, s, view, db, ServerMemberLeave(id, cache.userId))
         == Handle(cache, s, view, db, ServerDelete(id))
  {
  }
}
