/**
 Where a member's permissions come from: each flag is decided by the roles the member holds, and by no others. The
 results of both calculations are described from the records alone, flag by flag.
 */
module HeldRoles {
  import opened Models
  import opened Permissions
  import opened RoleRanking
  import opened Approval
  import opened ChannelPermissions

  function RolePermissions(server: Server): map<string, Override> {
    map id | id in server.roles :: server.roles[id].permissions
  }

  /** The member holds the role, the server still has it, and its override in `given` mentions the flag. */
  predicate Speaks(server: Server, member: Member, given: map<string, Override>, id: string, flag: Flag) {
    id in member.roles && id in server.roles && id in given && (flag in given[id].allow || flag in given[id].deny)
  }

  /** No held role of smaller rank number mentions the flag. */
  ghost predicate TopSpeaker(server: Server, member: Member, given: map<string, Override>, id: string, flag: Flag) {
    && Speaks(server, member, given, id, flag)
    && forall x :: Speaks(server, member, given, x, flag) ==> server.roles[id].rank <= server.roles[x].rank
  }

  /** Whether the flag is granted: a top speaker decides, and where nobody speaks it stays as it was. */
  ghost predicate Decided(
    server: Server, member: Member, given: map<string, Override>, flag: Flag, before: bool, after: bool)
  {
    if exists id :: Speaks(server, member, given, id, flag)
    then exists id :: TopSpeaker(server, member, given, id, flag) && after == (flag !in given[id].deny)
    else after == before
  }

  /** A member in timeout keeps viewing and reading the history, and nothing else. */
  predicate TimedOutOf(member: Member, now: int, flag: Flag) {
    member.timeout.Some? && now < member.timeout.value && flag != VIEW_CHANNEL && flag != READ_MESSAGE_HISTORY
  }

  /** The voice permissions a member is refused. */
  predicate Muted(member: Member, flag: Flag) {
    (!member.canPublish && (flag == SPEAK || flag == VIDEO)) || (!member.canReceive && flag == LISTEN)
  }

  lemma StackDecides(
    server: Server, member: Member, given: map<string, Override>, stack: seq<Override>, value: Mask, flag: Flag)
    requires IsStack(stack, ChannelOverrides(server, member, given))
    ensures Decided(server, member, given, flag, flag in value, flag in AppliedAll(value, stack))
  {
    var m := ChannelOverrides(server, member, given);
    var order :| Ordering(order, m) && stack == Stack(order, m);
    if id :| Speaks(server, member, given, id, flag) {
      assert id in m && Mentions(m[id].o, flag);
      var top := TopRoleDecides(value, order, m, flag);
      forall x | Speaks(server, member, given, x, flag) ensures server.roles[top].rank <= server.roles[x].rank {
        assert x in m && Mentions(m[x].o, flag);
      }
      assert TopSpeaker(server, member, given, top, flag);
    } else {
      forall i | 0 <= i < |stack| ensures !Mentions(stack[i], flag) {
        assert order[i] in m;
        assert !Speaks(server, member, given, order[i], flag);
      }
      SilentStackKeepsFlag(value, stack, flag);
    }
  }

  lemma SameOverrides(server: Server, member: Member)
    ensures ServerOverrides(server, member) == ChannelOverrides(server, member, RolePermissions(server))
  {
  }

  lemma ServerStackDecides(server: Server, member: Member, stack: seq<Override>, flag: Flag)
    requires IsStack(stack, ServerOverrides(server, member))
    ensures Decided(server, member, RolePermissions(server), flag, flag in server.defaultPermissions,
                    flag in AppliedAll(server.defaultPermissions, stack))
  {
    SameOverrides(server, member);
    StackDecides(server, member, RolePermissions(server), stack, server.defaultPermissions, flag);
  }

  // ----- In a server -----

  /** The possible verdicts of a server's defaults and the roles held. */
  ghost predicate ServerVerdict(server: Server, member: Member, flag: Flag, granted: bool) {
    Decided(server, member, RolePermissions(server), flag, flag in server.defaultPermissions, granted)
  }

  lemma ServerValueFlag(defaults: Mask, stack: seq<Override>, member: Member, now: int, flag: Flag)
    ensures flag in ServerValue(defaults, stack, member.canPublish, member.canReceive, member.InTimeout(now)) <==>
      flag in AppliedAll(defaults, stack) && !Muted(member, flag) && !TimedOutOf(member, now, flag)
    ensures flag in ServerValue(defaults, stack, true, true, member.InTimeout(now)) <==>
      flag in AppliedAll(defaults, stack) && !TimedOutOf(member, now, flag)
  {
  }

  /**
   Every flag of a member's server permissions is decided by a held role of smallest rank that mentions it, or by
   the defaults if no held role does, unless the timeout or the voice flags take it away.
   */
  lemma ServerFlagDecided(value: Mask, us: User, server: Server, member: Member, now: int, flag: Flag)
    requires ServerResult(value, us, Some(server), Some(member), now) && !us.privileged && server.owner != us.id
    ensures if Muted(member, flag) || TimedOutOf(member, now, flag) then flag !in value
            else ServerVerdict(server, member, flag, flag in value)
  {
    var ss :| IsStack(ss, ServerOverrides(server, member))
      && value == ServerValue(server.defaultPermissions, ss,
                              member.canPublish, member.canReceive, member.InTimeout(now));
    ServerStackDecides(server, member, ss, flag);
    ServerValueFlag(server.defaultPermissions, ss, member, now, flag);
  }

  /** So a member has no permission but the defaults and what a held role allows. */
  lemma OnlyHeldRolesGrant(value: Mask, us: User, server: Server, member: Member, now: int, flag: Flag)
    requires ServerResult(value, us, Some(server), Some(member), now) && !us.privileged && server.owner != us.id
    requires flag in value && flag !in server.defaultPermissions
    ensures exists id :: id in member.roles && id in server.roles && flag in server.roles[id].permissions.allow
  {
    ServerFlagDecided(value, us, server, member, now, flag);
    var id :| TopSpeaker(server, member, RolePermissions(server), id, flag)
      && flag !in RolePermissions(server)[id].deny;
    assert id in member.roles && id in server.roles && flag in server.roles[id].permissions.allow;
  }

  // ----- In a text channel -----

  /** The channel's own defaults, then its overrides for the roles held. */
  ghost predicate ChannelVerdict(
    server: Server, member: Member, channel: Channel, flag: Flag, before: bool, granted: bool)
    requires channel.TextChannel?
  {
    var said := channel.defaults.Some? && (flag in channel.defaults.value.allow || flag in channel.defaults.value.deny);
    Decided(server, member, channel.rolePermissions, flag,
            if said then flag !in channel.defaults.value.deny else before, granted)
  }

  lemma ChannelStackDecides(
    server: Server, member: Member, channel: Channel, cs: seq<Override>, value: Mask, flag: Flag)
    requires channel.TextChannel? && IsStack(cs, OverridesIn(server, member, channel))
    ensures ChannelVerdict(server, member, channel, flag, flag in value,
                           flag in AppliedAll(value, [DefaultsOf(channel)] + cs))
  {
    DefaultsFirst(value, DefaultsOf(channel), cs);
    StackDecides(server, member, channel.rolePermissions, cs, Applied(value, DefaultsOf(channel)), flag);
  }

  /** From the server's verdict to the channel's, where `kept` tells whether the flag survives in between. */
  ghost predicate Verdict(
    server: Server, member: Member, channel: Channel, flag: Flag, kept: bool, inServer: bool, granted: bool)
    requires channel.TextChannel?
  {
    ServerVerdict(server, member, flag, inServer)
    && ChannelVerdict(server, member, channel, flag, inServer && kept, granted)
  }

  ghost predicate EitherVerdict(
    server: Server, member: Member, channel: Channel, flag: Flag, kept: bool, granted: bool)
    requires channel.TextChannel?
  {
    || Verdict(server, member, channel, flag, kept, true, granted)
    || Verdict(server, member, channel, flag, kept, false, granted)
  }

  lemma StacksDecide(
    server: Server, member: Member, channel: Channel, ss: seq<Override>, cs: seq<Override>, value: Mask,
    flag: Flag, kept: bool)
    requires channel.TextChannel?
    requires IsStack(ss, ServerOverrides(server, member)) && IsStack(cs, OverridesIn(server, member, channel))
    requires flag in value <==> flag in AppliedAll(server.defaultPermissions, ss) && kept
    ensures EitherVerdict(server, member, channel, flag, kept, flag in AppliedAll(value, [DefaultsOf(channel)] + cs))
  {
    ServerStackDecides(server, member, ss, flag);
    ChannelStackDecides(server, member, channel, cs, value, flag);
    var inServer := flag in AppliedAll(server.defaultPermissions, ss);
    assert (flag in value) == (inServer && kept);
    assert Verdict(server, member, channel, flag, kept, inServer,
                   flag in AppliedAll(value, [DefaultsOf(channel)] + cs));
  }

  /** The bulk calculation applies the timeout in the server alone, and no voice flags. */
  lemma BulkFlagDecided(
    value: Mask, user: User, server: Server, member: Member, channel: Channel, now: int, flag: Flag)
    requires channel.TextChannel? && BulkResult(value, user, server, Some(member), channel, now)
    requires !user.privileged && server.owner != user.id
    ensures EitherVerdict(server, member, channel, flag, !TimedOutOf(member, now, flag), flag in value)
  {
    var ss, cs :|
      && IsStack(ss, ServerOverrides(server, member)) && IsStack(cs, OverridesIn(server, member, channel))
      && value == BulkMemberValue(server, member, channel, now, ss, cs);
    var whole := ServerValue(server.defaultPermissions, ss, true, true, member.InTimeout(now));
    BulkValueUnfolds(server, member, channel, now, ss, cs);
    ServerValueFlag(server.defaultPermissions, ss, member, now, flag);
    StacksDecide(server, member, channel, ss, cs, whole, flag, !TimedOutOf(member, now, flag));
  }

  /** The one-user calculation applies both, and the timeout again in the channel. */
  ghost predicate OneUserVerdict(server: Server, member: Member, channel: Channel, now: int, flag: Flag, granted: bool)
    requires channel.TextChannel?
  {
    if TimedOutOf(member, now, flag) then !granted
    else EitherVerdict(server, member, channel, flag, !Muted(member, flag), granted)
  }

  lemma StackValueFlag(value: Mask, stack: seq<Override>, member: Member, now: int, flag: Flag)
    ensures flag in StackValue(value, stack, member.InTimeout(now)) <==>
      flag in AppliedAll(value, stack) && !TimedOutOf(member, now, flag)
  {
  }

  lemma OneUserRawDecided(
    server: Server, member: Member, channel: Channel, now: int, ss: seq<Override>, cs: seq<Override>, flag: Flag)
    requires channel.TextChannel?
    requires IsStack(ss, ServerOverrides(server, member)) && IsStack(cs, OverridesIn(server, member, channel))
    ensures var inServer := ServerValue(server.defaultPermissions, ss,
                                        member.canPublish, member.canReceive, member.InTimeout(now));
      OneUserVerdict(server, member, channel, now, flag,
                     flag in StackValue(inServer, [DefaultsOf(channel)] + cs, member.InTimeout(now)))
  {
    var inServer := ServerValue(server.defaultPermissions, ss,
                                member.canPublish, member.canReceive, member.InTimeout(now));
    StackValueFlag(inServer, [DefaultsOf(channel)] + cs, member, now, flag);
    if !TimedOutOf(member, now, flag) {
      ServerValueFlag(server.defaultPermissions, ss, member, now, flag);
      StacksDecide(server, member, channel, ss, cs, inServer, flag, !Muted(member, flag));
    }
  }

  /** A flag is in the one-user value exactly if it and viewing the channel are both granted. */
  lemma OneUserFlagDecided(
    value: Mask, user: User, server: Server, member: Member, channel: Channel, now: int, flag: Flag)
    requires channel.TextChannel? && OneUserResult(value, user, server, Some(member), channel, now)
    requires !user.privileged && server.owner != user.id
    ensures flag in value ==>
      && OneUserVerdict(server, member, channel, now, VIEW_CHANNEL, true)
      && OneUserVerdict(server, member, channel, now, flag, true)
    ensures flag !in value ==>
      || OneUserVerdict(server, member, channel, now, VIEW_CHANNEL, false)
      || OneUserVerdict(server, member, channel, now, flag, false)
  {
    var ss, cs :|
      && IsStack(ss, ServerOverrides(server, member)) && IsStack(cs, OverridesIn(server, member, channel))
      && value == MemberValue(server, member, channel, now, ss, cs);
    OneUserRawDecided(server, member, channel, now, ss, cs, VIEW_CHANNEL);
    OneUserRawDecided(server, member, channel, now, ss, cs, flag);
  }

  // ----- Roles the member does not hold -----

  function WithoutRole(server: Server, role: string): Server {
    server.(roles := server.roles - {role})
  }

  function WithoutOverride(channel: Channel, role: string): Channel
    requires channel.TextChannel?
  {
    channel.(rolePermissions := channel.rolePermissions - {role})
  }

  /** Removing a role the member does not hold, and its override in the channel, changes no possible result. */
  lemma UnheldRoleIsIrrelevant(
    value: Mask, user: User, server: Server, member: Member, channel: Channel, now: int, role: string)
    requires channel.TextChannel? && role !in member.roles
    ensures ServerResult(value, user, Some(server), Some(member), now)
       <==> ServerResult(value, user, Some(WithoutRole(server, role)), Some(member), now)
    ensures OneUserResult(value, user, server, Some(member), channel, now)
       <==> OneUserResult(value, user, WithoutRole(server, role), Some(member), WithoutOverride(channel, role), now)
    ensures BulkResult(value, user, server, Some(member), channel, now)
       <==> BulkResult(value, user, WithoutRole(server, role), Some(member), WithoutOverride(channel, role), now)
  {
    assert ServerOverrides(WithoutRole(server, role), member) == ServerOverrides(server, member);
    assert OverridesIn(WithoutRole(server, role), member, WithoutOverride(channel, role))
        == OverridesIn(server, member, channel);
    forall ss, cs
      ensures MemberValue(WithoutRole(server, role), member, WithoutOverride(channel, role), now, ss, cs)
           == MemberValue(server, member, channel, now, ss, cs)
      ensures BulkMemberValue(WithoutRole(server, role), member, WithoutOverride(channel, role), now, ss, cs)
           == BulkMemberValue(server, member, channel, now, ss, cs)
    {
    }
  }
}
