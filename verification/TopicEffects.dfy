/**
 What an event does to the topics of a connection: which topics it subscribes, which it ends, which it
 leaves alone, and when a channel's topic follows what the user may see.
 */
module TopicEffects {
  import opened Models
  import opened Subscriptions
  import opened Events

  /** The channel is cached and the user may see it. */
  predicate Shown(cache: Cache, view: Visibility, c: string) {
    c in cache.channels && CanView(view, cache, cache.channels[c])
  }

  /** Whether a user sees a channel depends on that channel, the servers, the memberships and the user alone. */
  ghost predicate Local(view: Visibility) {
    forall a: Cache, b: Cache, c: Channel ::
      SameButChannels(a, b) ==> view(a, c) == view(b, c)
  }

  predicate SameButChannels(a: Cache, b: Cache) {
    a.userId == b.userId && a.users == b.users && a.members == b.members && a.servers == b.servers
  }

  function Cached<T>(records: map<string, T>, id: string): Option<T> {
    if id in records then Some(records[id]) else None
  }

  /** A permission query is given the user, the channel, and the cached server and membership of the channel. */
  type Judge = (Option<User>, Option<Member>, Option<Server>, Channel) -> bool

  function JudgedBy(judge: Judge): Visibility {
    (cache: Cache, channel: Channel) => channel.TextChannel? &&
      judge(Cached(cache.users, cache.userId), Cached(cache.members, channel.server),
            Cached(cache.servers, channel.server), channel)
  }

  /** So whatever it answers from these is local. */
  lemma QueriesAreLocal(judge: Judge)
    ensures Local(JudgedBy(judge))
  {
  }

  lemma SameSight(view: Visibility, a: Cache, b: Cache, c: Channel)
    requires Local(view) && SameButChannels(a, b)
    ensures CanView(view, a, c) <==> CanView(view, b, c)
  {
  }

  // ----- Updates of one channel -----

  /**
   An update of a channel changes at most its own topic. When the channel becomes visible or ceases to be, it is
   subscribed exactly if it is visible now, and the client is told of a new or a deleted channel; otherwise its
   topic and the event stay as they are.
   */
  lemma ChannelUpdateTopics(
    cache: Cache, s: Subs, view: Visibility, db: Db, id: string, patch: ChannelPatch, topic: string)
    ensures var h := Handle(cache, s, view, db, ChannelUpdate(id, patch));
      var turns := id in h.cache.channels && (Shown(cache, view, id) <==> !Shown(h.cache, view, id));
      && (topic != id ==> (topic in h.subs.subscribed <==> topic in s.subscribed))
      && (turns ==> (id in h.subs.subscribed <==> Shown(h.cache, view, id)))
      && (turns ==> h.forward == Instead(if Shown(h.cache, view, id) then ChannelCreate(h.cache.channels[id])
                                         else ChannelDelete(id)))
      && (!turns ==> h.subs == s && h.forward == Same)
  {
  }

  /** Only that channel changes in the cache: one that is known stays, one that is not is fetched if it is stored. */
  lemma ChannelUpdateCache(
    cache: Cache, s: Subs, view: Visibility, db: Db, id: string, patch: ChannelPatch, c: string)
    ensures var h := Handle(cache, s, view, db, ChannelUpdate(id, patch));
      && SameButChannels(h.cache, cache)
      && (c in h.cache.channels <==> c in cache.channels || (c == id && c in db.channels))
      && (c in h.cache.channels && c != id ==> h.cache.channels[c] == cache.channels[c])
      && (id !in cache.channels && id in db.channels ==> h.cache.channels[id] == db.channels[id])
  {
  }

  // ----- Events that re-determine a server's channels -----

  /** The events about a server after which its visible channels are determined anew. */
  predicate Redetermines(cache: Cache, e: Event) {
    match e
    case ServerCreate(_, _, _) => true
    case ServerUpdate(id, p) => id in cache.servers && p.defaultPermissions.Some?
    case ServerMemberUpdate(id, user, p) =>
      id in cache.servers && user == cache.userId && (p.roles.Some? || p.clearRoles)
    case ServerRoleUpdate(id, role, p) =>
      && id in cache.servers && id in cache.members && role in cache.members[id].roles
      && (p.rank.Some? || p.permissions.Some?)
    case ServerRoleDelete(id, role) =>
      id in cache.servers && id in cache.members && role in cache.members[id].roles
    case _ => false
  }

  /** The channels known when the event is handled: a join brings its own. */
  function Known(cache: Cache, e: Event): map<string, Channel> {
    if e.ServerCreate? then cache.channels + ById(e.channels) else cache.channels
  }

  predicate OwnChannel(cache: Cache, e: Event, c: string)
    requires MayRecalculate(e)
  {
    c in Known(cache, e) && Known(cache, e)[c].TextChannel? && Known(cache, e)[c].server == e.id
  }

  /** What the server lists once the event is applied. */
  function Listing(cache: Cache, e: Event): set<string>
    requires MayRecalculate(e)
  {
    if e.ServerCreate? then Elements(e.server.channels)
    else if e.ServerUpdate? && e.serverPatch.channels.Some? then Elements(e.serverPatch.channels.value)
    else if e.id in cache.servers then Elements(cache.servers[e.id].channels)
    else {}
  }

  /** A channel that the server lists, that is not known as the server's, and that can be fetched. */
  predicate Fetchable(cache: Cache, db: Db, e: Event, c: string)
    requires MayRecalculate(e)
  {
    c in Listing(cache, e) && !OwnChannel(cache, e, c) && db.up && c in db.channels
  }

  /** The outcome of an event that re-determines a server, for one channel or topic. */
  ghost predicate Redetermined(cache: Cache, s: Subs, view: Visibility, db: Db, e: Event, h: Handled, c: string)
    requires MayRecalculate(e)
  {
    if OwnChannel(cache, e, c) then
      && (c in h.subs.subscribed <==> CanView(view, h.cache, Known(cache, e)[c]))
      && (c in h.cache.channels <==> CanView(view, h.cache, Known(cache, e)[c]))
      && (c in h.cache.channels ==> h.cache.channels[c] == Known(cache, e)[c])
    else if Fetchable(cache, db, e, c) && CanView(view, h.cache, db.channels[c]) then
      c in h.subs.subscribed && c in h.cache.channels && h.cache.channels[c] == db.channels[c]
    else
      && (c in h.subs.subscribed <==>
            c in s.subscribed || (e.ServerCreate? && (c == e.id || (cache.isBot && c == MemberTopic(e.id)))))
      && (c in h.cache.channels <==> c in Known(cache, e))
      && (c in h.cache.channels ==> h.cache.channels[c] == Known(cache, e)[c])
  }

  /** The same for a recalculation on its own. */
  lemma RecalculatedTopic(cache: Cache, s: Subs, view: Visibility, db: Db, server: string, c: string)
    requires Local(view) && server in cache.servers
    ensures var h := WithRecalculation(cache, s, view, db, server);
      && SameButChannels(h.cache, cache)
      && if c in OwnChannels(cache, server) then
           && (c in h.subs.subscribed <==> CanView(view, h.cache, cache.channels[c]))
           && (c in h.cache.channels <==> CanView(view, h.cache, cache.channels[c]))
           && (c in h.cache.channels ==> h.cache.channels[c] == cache.channels[c])
         else if && c in cache.servers[server].channels && db.up && c in db.channels
                 && CanView(view, h.cache, db.channels[c]) then
           c in h.subs.subscribed && c in h.cache.channels && h.cache.channels[c] == db.channels[c]
         else
           && (c in h.subs.subscribed <==> c in s.subscribed)
           && (c in h.cache.channels <==> c in cache.channels)
           && (c in h.cache.channels ==> h.cache.channels[c] == cache.channels[c])
  {
    var r, h := Recalculate(cache, view, db, server), WithRecalculation(cache, s, view, db, server);
    RecalculationResult(cache, s, view, db, server);
    if c in OwnChannels(cache, server) {
      SameSight(view, cache, h.cache, cache.channels[c]);
    } else if c in db.channels {
      SameSight(view, cache.(channels := cache.channels - r.dropped), h.cache, db.channels[c]);
    }
  }

  lemma JoinRedetermines(cache: Cache, s: Subs, view: Visibility, db: Db, e: Event, c: string)
    requires Local(view) && e.ServerCreate?
    ensures Redetermined(cache, s, view, db, e, Handle(cache, s, view, db, e), c)
  {
    var joined := JoinedCache(cache, e.id, e.server, e.channels);
    RecalculatedTopic(joined, Inserted(s, OwnTopics(cache, e.id)), view, db, e.id, c);
  }

  lemma UpdateRedetermines(cache: Cache, s: Subs, view: Visibility, db: Db, e: Event, c: string)
    requires Local(view) && Redetermines(cache, e) && e.ServerUpdate?
    ensures Redetermined(cache, s, view, db, e, Handle(cache, s, view, db, e), c)
  {
    var after := cache.(servers := cache.servers[e.id := PatchedServer(cache.servers[e.id], e.serverPatch)]);
    RecalculatedTopic(after, s, view, db, e.id, c);
  }

  lemma MemberRedetermines(cache: Cache, s: Subs, view: Visibility, db: Db, e: Event, c: string)
    requires Local(view) && Redetermines(cache, e) && e.ServerMemberUpdate?
    ensures Redetermined(cache, s, view, db, e, Handle(cache, s, view, db, e), c)
  {
    var after := if e.id in cache.members
      then cache.(members := cache.members[e.id := PatchedMember(cache.members[e.id], e.memberPatch)]) else cache;
    RecalculatedTopic(after, s, view, db, e.id, c);
  }

  lemma RoleRedetermines(cache: Cache, s: Subs, view: Visibility, db: Db, e: Event, c: string)
    requires Local(view) && Redetermines(cache, e) && (e.ServerRoleUpdate? || e.ServerRoleDelete?)
    ensures Redetermined(cache, s, view, db, e, Handle(cache, s, view, db, e), c)
  {
    var after := if e.ServerRoleUpdate? then RoleUpdatedCache(cache, e.id, e.role, e.rolePatch)
                 else RoleDeletedCache(cache, e.id, e.role);
    RecalculatedTopic(after, s, view, db, e.id, c);
  }

  /**
   After a join, and after a change of the default permissions, of the own roles or of a role one holds, each known
   channel of the server is cached and subscribed exactly if it is visible now, each channel the server lists
   besides is fetched exactly if it is stored and visible, and every other channel and topic is as before.
   */
  lemma VisibleChannelsRedetermined(cache: Cache, s: Subs, view: Visibility, db: Db, e: Event, c: string)
    requires Local(view) && Redetermines(cache, e)
    ensures Redetermined(cache, s, view, db, e, Handle(cache, s, view, db, e), c)
  {
    match e {
      case ServerCreate(_, _, _) => JoinRedetermines(cache, s, view, db, e, c);
      case ServerUpdate(_, _) => UpdateRedetermines(cache, s, view, db, e, c);
      case ServerMemberUpdate(_, _, _) => MemberRedetermines(cache, s, view, db, e, c);
      case _ => RoleRedetermines(cache, s, view, db, e, c);
    }
  }

  /** Any other update of a server, a member or a role leaves all topics and cached channels alone. */
  lemma OtherPatchesAreQuiet(cache: Cache, s: Subs, view: Visibility, db: Db, e: Event)
    requires MayRecalculate(e) && !Redetermines(cache, e)
    ensures var h := Handle(cache, s, view, db, e);
      h.subs == s && h.cache.channels == cache.channels && h.forward == Same
  {
  }

  // ----- The other events -----

  /** A cached server's own topic, or that of a channel it lists. */
  predicate TopicOf(cache: Cache, server: string, topic: string) {
    topic == server || (server in cache.servers && topic in cache.servers[server].channels)
  }

  /** Events about single channels and users change the topic they name, and no other. */
  lemma TopicsNamed(cache: Cache, s: Subs, view: Visibility, db: Db, e: Event, topic: string)
    requires !MayRecalculate(e) && !e.ChannelUpdate?
    ensures var h := Handle(cache, s, view, db, e);
      topic in h.subs.subscribed <==>
        match e
        case ChannelCreate(channel) => topic in s.subscribed || topic == channel.id
        case ChannelDelete(id) => topic in s.subscribed && topic != id
        case ChannelGroupJoin(_, user) => topic in s.subscribed || topic == user
        case ChannelGroupLeave(id, user) =>
          && topic in s.subscribed
          && !(user == cache.userId && topic == id)
          && !(user != cache.userId && topic == user && !CanSubscribeToUser(cache, user))
        case ServerMemberLeave(id, user) =>
          topic in s.subscribed && !(user == cache.userId && TopicOf(cache, id, topic))
        case ServerDelete(id) => topic in s.subscribed && !TopicOf(cache, id, topic)
        case UserRelationship(id, other) =>
          if topic == id then CanSubscribeToUser(h.cache, id) else topic in s.subscribed
        case _ => topic in s.subscribed
  {
  }

  // ----- When a channel's topic follows its visibility -----

  /** The channel is subscribed exactly if it is cached and visible. */
  ghost predicate InStep(cache: Cache, s: Subs, view: Visibility, c: string) {
    c in s.subscribed <==> Shown(cache, view, c)
  }

  /** What an event names as a user, a server or a group to be left, and not as a channel of a server. */
  function Aside(e: Event): set<string> {
    match e
    case ChannelGroupJoin(_, user) => {user}
    case ChannelGroupLeave(id, user) => {id, user}
    case ServerCreate(id, _, _) => {id, MemberTopic(id)}
    case ServerMemberLeave(id, _) => {id}
    case ServerDelete(id) => {id}
    case UserRelationship(id, _) => {id}
    case _ => {}
  }

  /** One of the server's known channels, or one that is fetched. */
  predicate Redecided(cache: Cache, view: Visibility, db: Db, e: Event, after: Cache, c: string)
    requires MayRecalculate(e)
  {
    OwnChannel(cache, e, c) || (Fetchable(cache, db, e, c) && CanView(view, after, db.channels[c]))
  }

  /** The event itself decides about the channel's topic: it cannot leave it out of step. */
  predicate Settles(cache: Cache, view: Visibility, db: Db, e: Event, after: Cache, c: string) {
    if Redetermines(cache, e) then Redecided(cache, view, db, e, after, c)
    else
      match e
      case ChannelUpdate(id, _) => id == c
      case ChannelDelete(id) => id == c
      case ServerMemberLeave(id, user) => user == cache.userId && TopicOf(cache, id, c)
      case ServerDelete(id) => TopicOf(cache, id, c)
      case _ => false
  }

  /**
   The event puts the channel out of step: it creates a channel the user may not see, or it changes whether the user
   may see the channel without deciding about its topic.
   */
  predicate Silent(cache: Cache, view: Visibility, db: Db, e: Event, after: Cache, c: string) {
    if e.ChannelCreate? && e.channel.id == c then !Shown(after, view, c)
    else !Settles(cache, view, db, e, after, c) && Shown(after, view, c) != Shown(cache, view, c)
  }

  lemma RedeterminationInStepIff(cache: Cache, s: Subs, view: Visibility, db: Db, e: Event, c: string)
    requires Local(view) && InStep(cache, s, view, c) && c !in Aside(e) && Redetermines(cache, e)
    ensures var h := Handle(cache, s, view, db, e);
      InStep(h.cache, h.subs, view, c) <==> !Silent(cache, view, db, e, h.cache, c)
  {
    VisibleChannelsRedetermined(cache, s, view, db, e, c);
  }

  /** From a channel in step, an event leaves it so if and only if it is not silent about it. */
  lemma InStepKeptIff(cache: Cache, s: Subs, view: Visibility, db: Db, e: Event, c: string)
    requires Local(view) && InStep(cache, s, view, c) && c !in Aside(e)
    ensures var h := Handle(cache, s, view, db, e);
      InStep(h.cache, h.subs, view, c) <==> !Silent(cache, view, db, e, h.cache, c)
  {
    if Redetermines(cache, e) {
      RedeterminationInStepIff(cache, s, view, db, e, c);
    } else if MayRecalculate(e) {
      OtherPatchesAreQuiet(cache, s, view, db, e);
    } else if e.ChannelUpdate? {
      ChannelUpdateTopics(cache, s, view, db, e.id, e.channelPatch, c);
      ChannelUpdateCache(cache, s, view, db, e.id, e.channelPatch, c);
    } else {
      TopicsNamed(cache, s, view, db, e, c);
    }
  }
}
