/**
 Permissions in a server's text channel, computed twice: for one user through a
 permission query, and for many members at once through the bulk query.
 */
module ChannelPermissions {
  import opened Models
  import opened Permissions
  import opened RoleRanking
  import opened Approval
  import opened PersonalChannels

  /** Stored records by id, members by server and user; pairs of users with a mutual connection. */
  datatype Database = Database(
    users: map<string, User>,
    servers: map<string, Server>,
    members: map<(string, string), Member>,
    connections: set<(string, string)>)

  // ----- What the two calculations may return -----

  function DefaultsOf(channel: Channel): Override
    requires channel.TextChannel?
  {
    if channel.defaults.Some? then channel.defaults.value else Override({}, {})
  }

  function OverridesIn(server: Server, member: Member, channel: Channel): Applicable
    requires channel.TextChannel?
  {
    ChannelOverrides(server, member, channel.rolePermissions)
  }

  /** The value for a member who is neither privileged nor the owner, from the two role stacks. */
  function MemberValue(
    server: Server, member: Member, channel: Channel, now: int, ss: seq<Override>, cs: seq<Override>): Mask
    requires channel.TextChannel?
  {
    var serverValue := ServerValue(server.defaultPermissions, ss,
                                   member.canPublish, member.canReceive, member.InTimeout(now));
    ChannelValue(serverValue, [DefaultsOf(channel)] + cs, member.InTimeout(now))
  }

  /** `value` is a possible result of the one-user calculation. */
  ghost predicate OneUserResult(
    value: Mask, user: User, server: Server, member: Option<Member>, channel: Channel, now: int)
    requires channel.TextChannel?
  {
    if user.privileged || server.owner == user.id then value == GRANT_ALL_SAFE
    else if member.None? then value == {}
    else exists ss, cs ::
      && IsStack(ss, ServerOverrides(server, member.value))
      && IsStack(cs, OverridesIn(server, member.value, channel))
      && value == MemberValue(server, member.value, channel, now, ss, cs)
  }

  function BulkMemberValue(
    server: Server, member: Member, channel: Channel, now: int, ss: seq<Override>, cs: seq<Override>): Mask
    requires channel.TextChannel?
  {
    var serverValue := ServerValue(server.defaultPermissions, ss, true, true, member.InTimeout(now));
    var p := if channel.defaults.Some? then Applied(serverValue, channel.defaults.value) else serverValue;
    AppliedAll(p, cs)
  }

  /** `value` is a possible result of the bulk calculation: membership is tested first. */
  ghost predicate BulkResult(
    value: Mask, user: User, server: Server, member: Option<Member>, channel: Channel, now: int)
    requires channel.TextChannel?
  {
    if member.None? then value == {}
    else if user.privileged || server.owner == user.id then value == GRANT_ALL_SAFE
    else exists ss, cs ::
      && IsStack(ss, ServerOverrides(server, member.value))
      && IsStack(cs, OverridesIn(server, member.value, channel))
      && value == BulkMemberValue(server, member.value, channel, now, ss, cs)
  }

  // ----- The one-user calculation -----

  function KnownServer(db: Database, channel: Channel, known: Option<Server>): Option<Server>
    requires channel.TextChannel?
  {
    if known.Some? && known.value.id == channel.server then known
    else if channel.server in db.servers then Some(db.servers[channel.server])
    else known
  }

  function KnownMember(db: Database, server: Server, user: User, known: Option<Member>): Option<Member> {
    if known.Some? then known
    else if (server.id, user.id) in db.members then Some(db.members[(server.id, user.id)])
    else None
  }

  function KnownUser(db: Database, channel: Channel, us: User, known: Option<User>): Option<User>
    requires channel.DirectMessage?
  {
    var partner := Partner(channel.recipients, us.id);
    if partner.Some? && partner.value in db.users then Some(db.users[partner.value]) else known
  }

  function KnownMutual(db: Database, us: User, user: Option<User>, known: Option<bool>): bool {
    if known.Some? then known.value else user.Some? && (us.id, user.value.id) in db.connections
  }

  /** `value` is a possible result of the server calculation. */
  ghost predicate ServerResult(value: Mask, us: User, server: Option<Server>, member: Option<Member>, now: int) {
    if us.privileged || (server.Some? && server.value.owner == us.id) then value == GRANT_ALL_SAFE
    else if server.None? || member.None? then value == {}
    else exists ss ::
      && IsStack(ss, ServerOverrides(server.value, member.value))
      && value == ServerValue(server.value.defaultPermissions, ss,
                              member.value.canPublish, member.value.canReceive, member.value.InTimeout(now))
  }

  /** A query from one user's perspective; user, server and member are filled in as they become known. */
  class PermissionQuery {
    const database: Database
    const perspective: User
    const channel: Option<Channel>
    var user: Option<User>
    var server: Option<Server>
    var member: Option<Member>
    var mutual: Option<bool>

    constructor (database: Database, perspective: User, channel: Option<Channel>,
                 user: Option<User>, server: Option<Server>, member: Option<Member>)
      ensures this.database == database && this.perspective == perspective && this.channel == channel
      ensures this.user == user && this.server == server && this.member == member && mutual.None?
    {
      this.database, this.perspective, this.channel := database, perspective, channel;
      this.user, this.server, this.member, this.mutual := user, server, member, None;
    }

    // ----- Against a user -----

    method HaveMutualConnection() returns (b: bool)
      modifies `mutual
      ensures b == KnownMutual(database, perspective, user, old(mutual))
      ensures mutual == if old(mutual).Some? || user.None? then old(mutual) else Some(b)
    {
      if mutual.Some? {
        return mutual.value;
      }
      if user.None? {
        return false;
      }
      b := (perspective.id, user.value.id) in database.connections;
      mutual := Some(b);
    }

    method CalculateUserPermissions() returns (permissions: Mask)
      modifies `mutual
      ensures permissions == UserValue(perspective, user, KnownMutual(database, perspective, user, old(mutual)))
    {
      if perspective.privileged || SameUser(perspective, user) {
        return ALL_FLAGS;
      }
      permissions := {};
      match RelationshipTo(perspective, user) {
        case Friend => return ALL_FLAGS;
        case Blocked => return {ACCESS};
        case BlockedOther => return {ACCESS};
        case Incoming => permissions := {ACCESS};
        case Outgoing => permissions := {ACCESS};
        case _ =>
      }
      var connected := HaveMutualConnection();
      if connected {
        permissions := {ACCESS, VIEW_PROFILE};
        if AnyBot(perspective, user) {
          permissions := permissions + {MESSAGE_USER};
        }
      }
    }

    /** The partner of a direct message becomes the user asked about; a failed fetch leaves the field as it was. */
    method SetRecipientAsUser()
      requires channel.Some? && channel.value.DirectMessage?
      requires Partner(channel.value.recipients, perspective.id).Some?
      modifies `user
      ensures user == KnownUser(database, channel.value, perspective, old(user))
    {
      var partner := Partner(channel.value.recipients, perspective.id).value;
      if partner in database.users {
        user := Some(database.users[partner]);
      }
    }

    // ----- In a server -----

    /** A known server of the right id is kept; a failed fetch leaves the field as it was. */
    method SetServerFromChannel()
      requires channel.Some? && channel.value.TextChannel?
      modifies `server
      ensures server == KnownServer(database, channel.value, old(server))
    {
      if server.Some? && server.value.id == channel.value.server {
        return;
      }
      if channel.value.server in database.servers {
        server := Some(database.servers[channel.value.server]);
      }
    }

    method AreWeAMember() returns (b: bool)
      modifies `member
      ensures server.None? ==> !b && member == old(member)
      ensures server.Some? ==> member == KnownMember(database, server.value, perspective, old(member))
      ensures server.Some? ==> b == member.Some?
    {
      if server.None? {
        return false;
      }
      if member.None? && (server.value.id, perspective.id) in database.members {
        member := Some(database.members[(server.value.id, perspective.id)]);
      }
      return member.Some?;
    }

    /** The member's branch: defaults, role stack, voice flags, timeout. */
    method ServerPermissionsOfMember(now: int) returns (permissions: Mask, ghost ss: seq<Override>)
      requires server.Some? && member.Some?
      ensures IsStack(ss, ServerOverrides(server.value, member.value))
      ensures permissions == ServerValue(server.value.defaultPermissions, ss,
                               member.value.canPublish, member.value.canReceive, member.value.InTimeout(now))
    {
      var p := new PermissionValue(server.value.defaultPermissions);
      var stack := CollectStack(ServerOverrides(server.value, member.value));
      p.ApplyStack(stack);
      if !member.value.canPublish {
        p.Revoke({SPEAK});
        p.Revoke({VIDEO});
      }
      if !member.value.canReceive {
        p.Revoke({LISTEN});
      }
      if member.value.InTimeout(now) {
        p.Restrict(ALLOW_IN_TIMEOUT);
      }
      permissions, ss := p.value, stack;
    }

    method CalculateServerPermissions(now: int) returns (permissions: Mask)
      modifies `member
      ensures ServerResult(permissions, perspective, server,
        if server.Some? then KnownMember(database, server.value, perspective, old(member)) else None, now)
    {
      if perspective.privileged || (server.Some? && server.value.owner == perspective.id) {
        return GRANT_ALL_SAFE;
      }
      var isMember := AreWeAMember();
      if !isMember {
        return {};
      }
      ghost var ss;
      permissions, ss := ServerPermissionsOfMember(now);
    }

    /** The member's branch, once server and member are known. */
    method CalculateForMember(now: int) returns (permissions: Mask)
      requires channel.Some? && channel.value.TextChannel? && server.Some? && member.Some?
      requires !perspective.privileged && server.value.owner != perspective.id
      ensures OneUserResult(permissions, perspective, server.value, member, channel.value, now)
    {
      ghost var ss;
      permissions, ss := ServerPermissionsOfMember(now);
      var serverValue := permissions;
      var p := new PermissionValue(permissions);
      var defaults := DefaultsOf(channel.value);
      p.Apply(defaults);
      var stack := CollectStack(OverridesIn(server.value, member.value, channel.value));
      p.ApplyStack(stack);
      DefaultsFirst(serverValue, defaults, stack);
      if member.value.InTimeout(now) {
        p.Restrict(ALLOW_IN_TIMEOUT);
      }
      if !p.Has({VIEW_CHANNEL}) {
        p.RevokeAll();
      }
      permissions := p.value;
      assert permissions == MemberValue(server.value, member.value, channel.value, now, ss, stack);
    }

    method CalculateTextChannel(now: int) returns (permissions: Mask)
      requires channel.Some? && channel.value.TextChannel? && !perspective.privileged
      modifies `server, `member
      ensures TextChannelResult(permissions, database, perspective, channel.value, old(server), old(member), now)
    {
      SetServerFromChannel();
      if server.Some? && server.value.owner == perspective.id {
        return GRANT_ALL_SAFE;
      }
      var isMember := AreWeAMember();
      if !isMember {
        return {};
      }
      permissions := CalculateForMember(now);
    }

    /** A direct message must have a partner. */
    method CalculateChannelPermissions(now: int) returns (permissions: Mask)
      requires channel.Some? && !perspective.privileged ==> HasPartner(perspective, channel.value)
      modifies this
      ensures ChannelResult(permissions, database, perspective, channel,
                            old(user), old(server), old(member), old(mutual), now)
    {
      if perspective.privileged {
        return GRANT_ALL_SAFE;
      }
      if channel.None? {
        return {};
      }
      match channel.value {
        case SavedMessages(_, owner) =>
          permissions := if owner == perspective.id then GRANT_ALL_SAFE else {};
        case DirectMessage(_, recipients) =>
          if perspective.id !in recipients {
            return {};
          }
          SetRecipientAsUser();
          var towards := CalculateUserPermissions();
          permissions := if MESSAGE_USER in towards then DEFAULT_DIRECT_MESSAGE else DEFAULT_VIEW_ONLY;
        case Group(_, owner, recipients, preset, moderators) =>
          if owner == perspective.id || perspective.id in moderators {
            permissions := GRANT_ALL_SAFE;
          } else if perspective.id in recipients {
            permissions := DEFAULT_VIEW_ONLY + (if preset.Some? then preset.value else DEFAULT_DIRECT_MESSAGE);
          } else {
            permissions := {};
          }
        case TextChannel(_, _, _, _) =>
          permissions := CalculateTextChannel(now);
      }
    }
  }

  /** `value` is a possible result in a text channel for a user who is not privileged. */
  ghost predicate TextChannelResult(
    value: Mask, db: Database, us: User, channel: Channel, server: Option<Server>, member: Option<Member>, now: int)
    requires channel.TextChannel?
  {
    var s := KnownServer(db, channel, server);
    if s.None? then value == {}
    else OneUserResult(value, us, s.value, KnownMember(db, s.value, us, member), channel, now)
  }

  /** `value` is a possible result in any channel, from what the query knows at the start. */
  ghost predicate ChannelResult(
    value: Mask, db: Database, us: User, channel: Option<Channel>,
    user: Option<User>, server: Option<Server>, member: Option<Member>, mutual: Option<bool>, now: int)
  {
    if us.privileged then value == GRANT_ALL_SAFE
    else if channel.None? then value == {}
    else if channel.value.TextChannel? then TextChannelResult(value, db, us, channel.value, server, member, now)
    else
      var other := if channel.value.DirectMessage? then KnownUser(db, channel.value, us, user) else user;
      value == PersonalValue(us, channel.value,
                             MESSAGE_USER in UserValue(us, other, KnownMutual(db, us, other, mutual)))
  }

  lemma DefaultsFirst(value: Mask, defaults: Override, stack: seq<Override>)
    ensures AppliedAll(value, [defaults] + stack) == AppliedAll(Applied(value, defaults), stack)
  {
    AppliedAllConcat(value, [defaults], stack);
    assert AppliedAll(value, [defaults]) == Applied(AppliedAll(value, []), defaults);
  }

  // ----- The bulk calculation -----

  method BulkServerPermissions(server: Server, user: User, member: Member, now: int)
    returns (permissions: Mask, ghost ss: seq<Override>)
    ensures user.privileged || server.owner == user.id ==> permissions == GRANT_ALL_SAFE
    ensures !user.privileged && server.owner != user.id ==>
      && IsStack(ss, ServerOverrides(server, member))
      && permissions == ServerValue(server.defaultPermissions, ss, true, true, member.InTimeout(now))
  {
    if user.privileged || server.owner == user.id {
      return GRANT_ALL_SAFE, [];
    }
    var p := new PermissionValue(server.defaultPermissions);
    var stack := CollectStack(ServerOverrides(server, member));
    p.ApplyStack(stack);
    if member.InTimeout(now) {
      p.Restrict(ALLOW_IN_TIMEOUT);
    }
    permissions, ss := p.value, stack;
  }

  method BulkMemberPermissions(server: Server, channel: Channel, user: User, member: Option<Member>, now: int)
    returns (permissions: Mask)
    requires channel.TextChannel?
    ensures BulkResult(permissions, user, server, member, channel, now)
  {
    if member.None? {
      return {};
    }
    if user.privileged || user.id == server.owner {
      return GRANT_ALL_SAFE;
    }
    ghost var ss;
    permissions, ss := BulkServerPermissions(server, user, member.value, now);
    var p := new PermissionValue(permissions);
    if channel.defaults.Some? {
      p.Apply(channel.defaults.value);
    }
    var stack := CollectStack(OverridesIn(server, member.value, channel));
    p.ApplyStack(stack);
    permissions := p.value;
    assert permissions == BulkMemberValue(server, member.value, channel, now, ss, stack);
  }

  /** The user's entry in the member list; a later entry replaces an earlier one. */
  function MemberOf(members: seq<Member>, id: string): Option<Member> {
    if members == [] then None
    else if members[|members| - 1].user == id then Some(members[|members| - 1])
    else MemberOf(members[..|members| - 1], id)
  }

  predicate LastOfId(users: seq<User>, i: nat, n: nat)
    requires i < n <= |users|
  {
    forall j :: i < j < n ==> users[j].id != users[i].id
  }

  method CalculateMembersPermissions(server: Server, channel: Channel, users: seq<User>, members: seq<Member>, now: int)
    returns (resp: map<string, Mask>)
    requires channel.TextChannel?
    ensures forall id :: id in resp <==> exists i :: 0 <= i < |users| && users[i].id == id
    ensures forall i :: 0 <= i < |users| && LastOfId(users, i, |users|) ==>
      BulkResult(resp[users[i].id], users[i], server, MemberOf(members, users[i].id), channel, now)
  {
    resp := map[];
    for n := 0 to |users|
      invariant forall id :: id in resp <==> exists i :: 0 <= i < n && users[i].id == id
      invariant forall i :: 0 <= i < n && LastOfId(users, i, n) ==>
        BulkResult(resp[users[i].id], users[i], server, MemberOf(members, users[i].id), channel, now)
    {
      var user := users[n];
      var value := BulkMemberPermissions(server, channel, user, MemberOf(members, user.id), now);
      resp := AddResult(resp, users, n, members, server, channel, now, value);
    }
  }

  /** The stored users of the given ids, in some order. */
  method FetchUsers(db: Database, ids: set<string>) returns (users: seq<User>)
    ensures forall u :: u in users <==> exists id :: id in ids && id in db.users && db.users[id] == u
  {
    users := [];
    var rest := ids;
    while rest != {}
      invariant rest <= ids
      invariant forall u :: u in users <==> exists id :: id in ids - rest && id in db.users && db.users[id] == u
      decreases rest
    {
      var id :| id in rest;
      ghost var before := users;
      if id in db.users {
        users := users + [db.users[id]];
      }
      forall u ensures u in users <==> exists x :: x in ids - (rest - {id}) && x in db.users && db.users[x] == u {
        if id in db.users && db.users[id] == u {
          assert id in ids - (rest - {id});
        } else if u in before {
          var x :| x in ids - rest && x in db.users && db.users[x] == u;
          assert x in ids - (rest - {id});
        }
      }
      rest := rest - {id};
    }
  }

  /** The stored members of a server among the given users, in some order. */
  method FetchMembers(db: Database, server: string, ids: set<string>) returns (members: seq<Member>)
    ensures forall m :: m in members <==>
      exists id :: id in ids && (server, id) in db.members && db.members[(server, id)] == m
  {
    members := [];
    var rest := ids;
    while rest != {}
      invariant rest <= ids
      invariant forall m :: m in members <==>
        exists id :: id in ids - rest && (server, id) in db.members && db.members[(server, id)] == m
      decreases rest
    {
      var id :| id in rest;
      ghost var before := members;
      if (server, id) in db.members {
        members := members + [db.members[(server, id)]];
      }
      forall m
        ensures m in members <==>
          exists x :: x in ids - (rest - {id}) && (server, x) in db.members && db.members[(server, x)] == m
      {
        if (server, id) in db.members && db.members[(server, id)] == m {
          assert id in ids - (rest - {id});
        } else if m in before {
          var x :| x in ids - rest && (server, x) in db.members && db.members[(server, x)] == m;
          assert x in ids - (rest - {id});
        }
      }
      rest := rest - {id};
    }
  }

  /**
   Who of the given users or members can see the channel; whichever list is missing is fetched.
   Without either there is nothing to ask about.
   */
  method MembersCanSeeChannel(
    db: Database, server: Server, channel: Channel, users: Option<seq<User>>, members: Option<seq<Member>>, now: int)
    returns (sees: map<string, bool>, ghost asked: seq<User>, ghost known: seq<Member>)
    requires channel.TextChannel? && (users.Some? || members.Some?)
    ensures users.Some? ==> asked == users.value
    ensures users.None? ==> forall u :: u in asked <==>
      exists id :: id in (set m | m in members.value :: m.user) && id in db.users && db.users[id] == u
    ensures members.Some? ==> known == members.value
    ensures members.None? ==> forall m :: m in known <==>
      exists id :: id in (set u | u in asked :: u.id)
                && (server.id, id) in db.members && db.members[(server.id, id)] == m
    ensures forall id :: id in sees <==> exists i :: 0 <= i < |asked| && asked[i].id == id
    ensures forall i :: 0 <= i < |asked| && LastOfId(asked, i, |asked|) ==>
      exists value ::
        && BulkResult(value, asked[i], server, MemberOf(known, asked[i].id), channel, now)
        && (sees[asked[i].id] <==> VIEW_CHANNEL in value)
  {
    var us, ms;
    if users.Some? {
      us := users.value;
    } else {
      us := FetchUsers(db, set m | m in members.value :: m.user);
    }
    if members.Some? {
      ms := members.value;
    } else {
      ms := FetchMembers(db, server.id, set u | u in us :: u.id);
    }
    asked, known := us, ms;
    var resp := CalculateMembersPermissions(server, channel, us, ms, now);
    sees := map id | id in resp :: VIEW_CHANNEL in resp[id];
  }

  /** One insertion into the response map. */
  method AddResult(
    resp: map<string, Mask>, users: seq<User>, n: nat, members: seq<Member>,
    server: Server, channel: Channel, now: int, value: Mask)
    returns (next: map<string, Mask>)
    requires channel.TextChannel? && n < |users|
    requires forall id :: id in resp <==> exists i :: 0 <= i < n && users[i].id == id
    requires forall i :: 0 <= i < n && LastOfId(users, i, n) ==>
      BulkResult(resp[users[i].id], users[i], server, MemberOf(members, users[i].id), channel, now)
    requires BulkResult(value, users[n], server, MemberOf(members, users[n].id), channel, now)
    ensures forall id :: id in next <==> exists i :: 0 <= i < n + 1 && users[i].id == id
    ensures forall i :: 0 <= i < n + 1 && LastOfId(users, i, n + 1) ==>
      BulkResult(next[users[i].id], users[i], server, MemberOf(members, users[i].id), channel, now)
  {
    next := resp[users[n].id := value];
    forall i | 0 <= i < n + 1 && LastOfId(users, i, n + 1)
      ensures users[i].id in next
      ensures BulkResult(next[users[i].id], users[i], server, MemberOf(members, users[i].id), channel, now)
    {
      if i < n {
        assert LastOfId(users, i, n);
        assert users[n].id != users[i].id;
      }
    }
  }

  // ----- Agreement -----

  ghost predicate RanksDecide(server: Server, member: Member, channel: Channel)
    requires channel.TextChannel?
  {
    && DistinctRanks(ServerOverrides(server, member))
    && DistinctRanks(OverridesIn(server, member, channel))
  }

  /** Starting the same channel stack from less gives less, and keeps the view flag. */
  lemma ChannelStackAgrees(s1: Mask, s2: Mask, stack: seq<Override>)
    requires s1 <= s2 && (VIEW_CHANNEL in s2 ==> VIEW_CHANNEL in s1)
    ensures AppliedAll(s1, stack) <= AppliedAll(s2, stack)
    ensures VIEW_CHANNEL in AppliedAll(s2, stack) ==> VIEW_CHANNEL in AppliedAll(s1, stack)
  {
    StackCannotAddGain(s2, s1, stack);
    StackKeepsFlag(s1, s2, VIEW_CHANNEL, stack);
  }

  /** The bulk member value is the one-user stack applied to the uncut server value. */
  lemma BulkValueUnfolds(
    server: Server, member: Member, channel: Channel, now: int, ss: seq<Override>, cs: seq<Override>)
    requires channel.TextChannel?
    ensures BulkMemberValue(server, member, channel, now, ss, cs) ==
      AppliedAll(ServerValue(server.defaultPermissions, ss, true, true, member.InTimeout(now)),
                 [DefaultsOf(channel)] + cs)
  {
    var s := ServerValue(server.defaultPermissions, ss, true, true, member.InTimeout(now));
    DefaultsFirst(s, DefaultsOf(channel), cs);
    assert channel.defaults.None? ==> Applied(s, DefaultsOf(channel)) == s;
  }

  /** With the same stacks, the two differ only by what the voice flags, the timeout and the hidden channel remove. */
  lemma MemberValuesAgree(
    server: Server, member: Member, channel: Channel, now: int, ss: seq<Override>, cs: seq<Override>)
    requires channel.TextChannel?
    ensures var one := MemberValue(server, member, channel, now, ss, cs);
      var bulk := BulkMemberValue(server, member, channel, now, ss, cs);
      && (VIEW_CHANNEL in one <==> VIEW_CHANNEL in bulk)
      && one <= bulk
      && (!member.InTimeout(now) && member.canPublish && member.canReceive && VIEW_CHANNEL in one ==> one == bulk)
  {
    BulkValueUnfolds(server, member, channel, now, ss, cs);
    var timedOut := member.InTimeout(now);
    ChannelStackAgrees(
      ServerValue(server.defaultPermissions, ss, member.canPublish, member.canReceive, timedOut),
      ServerValue(server.defaultPermissions, ss, true, true, timedOut),
      [DefaultsOf(channel)] + cs);
  }

  /** Distinct ranks make the collected stacks interchangeable. */
  lemma BulkStacksInterchangeable(
    server: Server, member: Member, channel: Channel, now: int,
    ss: seq<Override>, cs: seq<Override>, bss: seq<Override>, bcs: seq<Override>)
    requires channel.TextChannel? && RanksDecide(server, member, channel)
    requires IsStack(ss, ServerOverrides(server, member)) && IsStack(bss, ServerOverrides(server, member))
    requires IsStack(cs, OverridesIn(server, member, channel)) && IsStack(bcs, OverridesIn(server, member, channel))
    ensures BulkMemberValue(server, member, channel, now, ss, cs)
         == BulkMemberValue(server, member, channel, now, bss, bcs)
  {
    DistinctRanksFixOutcome(server.defaultPermissions, ss, bss, ServerOverrides(server, member));
    var s := ServerValue(server.defaultPermissions, ss, true, true, member.InTimeout(now));
    var p := if channel.defaults.Some? then Applied(s, channel.defaults.value) else s;
    DistinctRanksFixOutcome(p, cs, bcs, OverridesIn(server, member, channel));
  }

  /**
   For a server member the bulk calculation sees the same channels, never less, and the same value when
   nothing is cut.
   */
  lemma BulkAgreesWithOneUser(
    user: User, server: Server, member: Member, channel: Channel, now: int, one: Mask, bulk: Mask)
    requires channel.TextChannel? && RanksDecide(server, member, channel)
    requires OneUserResult(one, user, server, Some(member), channel, now)
    requires BulkResult(bulk, user, server, Some(member), channel, now)
    ensures VIEW_CHANNEL in one <==> VIEW_CHANNEL in bulk
    ensures one <= bulk
    ensures !member.InTimeout(now) && member.canPublish && member.canReceive && VIEW_CHANNEL in one ==> one == bulk
  {
    if !user.privileged && server.owner != user.id {
      var ss, cs :|
        && IsStack(ss, ServerOverrides(server, member)) && IsStack(cs, OverridesIn(server, member, channel))
        && one == MemberValue(server, member, channel, now, ss, cs);
      var bss, bcs :|
        && IsStack(bss, ServerOverrides(server, member)) && IsStack(bcs, OverridesIn(server, member, channel))
        && bulk == BulkMemberValue(server, member, channel, now, bss, bcs);
      MemberValuesAgree(server, member, channel, now, ss, cs);
      BulkStacksInterchangeable(server, member, channel, now, ss, cs, bss, bcs);
    }
  }

  // ----- When the two answers are equal -----

  /** The voice permissions a member has been refused. */
  function Refused(member: Member): Mask {
    (if member.canPublish then {} else {SPEAK, VIDEO}) + (if member.canReceive then {} else {LISTEN})
  }

  /**
   The bulk value holds nothing that the one-user calculation removes: it is not the value of a hidden
   channel, goes beyond no timeout, and has the refused voice permissions only where the channel grants them.
   */
  predicate NothingCut(bulk: Mask, member: Member, now: int, stack: seq<Override>) {
    && (VIEW_CHANNEL in bulk || bulk == {})
    && (if member.InTimeout(now) then bulk <= ALLOW_IN_TIMEOUT
        else bulk * Refused(member) <= AppliedAll({}, stack))
  }

  /** What a stack grants by itself is all that survives of flags taken away before it. */
  lemma StackAfterCut(value: Mask, cut: Mask, stack: seq<Override>)
    ensures AppliedAll(value - cut, stack) == AppliedAll(value, stack) - (cut - AppliedAll({}, stack))
  {
    StackCollapses(value - cut, stack);
    StackCollapses(value, stack);
    StackCollapses({}, stack);
  }

  lemma ServerValueCut(server: Server, member: Member, now: int, ss: seq<Override>)
    ensures var whole := ServerValue(server.defaultPermissions, ss, true, true, member.InTimeout(now));
      ServerValue(server.defaultPermissions, ss, member.canPublish, member.canReceive, member.InTimeout(now))
        == if member.InTimeout(now) then whole else whole - Refused(member)
  {
  }

  lemma MemberValuesEqualIff(
    server: Server, member: Member, channel: Channel, now: int, ss: seq<Override>, cs: seq<Override>)
    requires channel.TextChannel?
    ensures var bulk := BulkMemberValue(server, member, channel, now, ss, cs);
      (MemberValue(server, member, channel, now, ss, cs) == bulk <==>
         NothingCut(bulk, member, now, [DefaultsOf(channel)] + cs))
  {
    var whole, stack := ServerValue(server.defaultPermissions, ss, true, true, member.InTimeout(now)),
                        [DefaultsOf(channel)] + cs;
    BulkValueUnfolds(server, member, channel, now, ss, cs);
    ServerValueCut(server, member, now, ss);
    StackAfterCut(whole, Refused(member), stack);
    MemberValuesAgree(server, member, channel, now, ss, cs);
  }

  lemma GrantsInterchangeable(server: Server, member: Member, channel: Channel, cs: seq<Override>, bcs: seq<Override>)
    requires channel.TextChannel? && RanksDecide(server, member, channel)
    requires IsStack(cs, OverridesIn(server, member, channel)) && IsStack(bcs, OverridesIn(server, member, channel))
    ensures AppliedAll({}, [DefaultsOf(channel)] + cs) == AppliedAll({}, [DefaultsOf(channel)] + bcs)
  {
    DefaultsFirst({}, DefaultsOf(channel), cs);
    DefaultsFirst({}, DefaultsOf(channel), bcs);
    DistinctRanksFixOutcome(Applied({}, DefaultsOf(channel)), cs, bcs, OverridesIn(server, member, channel));
  }

  /** A member's two answers are the same value if and only if nothing in the bulk answer is cut. */
  lemma EqualAnswersIff(
    user: User, server: Server, member: Member, channel: Channel, now: int, one: Mask, bulk: Mask, cs: seq<Override>)
    requires channel.TextChannel? && RanksDecide(server, member, channel)
    requires OneUserResult(one, user, server, Some(member), channel, now)
    requires BulkResult(bulk, user, server, Some(member), channel, now)
    requires IsStack(cs, OverridesIn(server, member, channel))
    ensures one == bulk <==>
      user.privileged || server.owner == user.id || NothingCut(bulk, member, now, [DefaultsOf(channel)] + cs)
  {
    if !user.privileged && server.owner != user.id {
      var ss, mcs :|
        && IsStack(ss, ServerOverrides(server, member)) && IsStack(mcs, OverridesIn(server, member, channel))
        && one == MemberValue(server, member, channel, now, ss, mcs);
      var bss, bcs :|
        && IsStack(bss, ServerOverrides(server, member)) && IsStack(bcs, OverridesIn(server, member, channel))
        && bulk == BulkMemberValue(server, member, channel, now, bss, bcs);
      BulkStacksInterchangeable(server, member, channel, now, ss, mcs, bss, bcs);
      MemberValuesEqualIff(server, member, channel, now, ss, mcs);
      GrantsInterchangeable(server, member, channel, cs, mcs);
    }
  }

  /** Without a membership the two answers agree exactly for users who are neither privileged nor the owner. */
  lemma OutsiderAgreementIff(user: User, server: Server, channel: Channel, now: int, one: Mask, bulk: Mask)
    requires channel.TextChannel?
    requires OneUserResult(one, user, server, None, channel, now)
    requires BulkResult(bulk, user, server, None, channel, now)
    ensures (VIEW_CHANNEL in one <==> VIEW_CHANNEL in bulk) <==> !(user.privileged || server.owner == user.id)
  {
  }
}
