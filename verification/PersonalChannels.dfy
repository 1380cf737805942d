/** Permissions against another user, and in channels that belong to no server. */
module PersonalChannels {
  import opened Models
  import opened Permissions
  import opened Relations

  /** Our relationship with the other user, where a bot's owner counts as the bot. */
  function RelationshipTo(us: User, other: Option<User>): Relationship {
    if other.None? then Unrelated
    else if us.id == other.value.id || other.value.bot == Some(us.id) then Self
    else RelationIn(us.relations, other.value.id)
  }

  predicate SameUser(us: User, other: Option<User>) {
    other.Some? && us.id == other.value.id
  }

  predicate AnyBot(us: User, other: Option<User>) {
    us.bot.Some? || (other.Some? && other.value.bot.Some?)
  }

  /** The permissions against a user, given whether there is a mutual connection. */
  function UserValue(us: User, other: Option<User>, mutual: bool): Mask {
    var relationship := RelationshipTo(us, other);
    if us.privileged || SameUser(us, other) || relationship.Friend? then ALL_FLAGS
    else if relationship.Blocked? || relationship.BlockedOther? then {ACCESS}
    else if mutual then {ACCESS, VIEW_PROFILE} + (if AnyBot(us, other) then {MESSAGE_USER} else {})
    else if relationship.Incoming? || relationship.Outgoing? then {ACCESS}
    else {}
  }

  /** The first recipient who is somebody else. */
  function Partner(recipients: seq<string>, us: string): (p: Option<string>)
    ensures p.Some? ==> p.value in recipients && p.value != us
    ensures p.None? ==> forall i :: 0 <= i < |recipients| ==> recipients[i] == us
  {
    if recipients == [] then None
    else if recipients[0] != us then Some(recipients[0])
    else Partner(recipients[1..], us)
  }

  /** A direct message one takes part in has somebody else in it. */
  predicate HasPartner(us: User, channel: Channel) {
    channel.DirectMessage? && us.id in channel.recipients ==> Partner(channel.recipients, us.id).Some?
  }

  predicate TakesPart(us: User, channel: Channel) {
    match channel
    case SavedMessages(_, user) => user == us.id
    case DirectMessage(_, recipients) => us.id in recipients
    case Group(_, owner, recipients, _, moderators) => owner == us.id || us.id in moderators || us.id in recipients
    case TextChannel(_, _, _, _) => false
  }

  /** The value outside servers, given whether the partner of a direct message may be written to. */
  function PersonalValue(us: User, channel: Channel, mayMessage: bool): Mask {
    match channel
    case SavedMessages(_, user) => if user == us.id then GRANT_ALL_SAFE else {}
    case DirectMessage(_, recipients) =>
      if us.id !in recipients then {} else if mayMessage then DEFAULT_DIRECT_MESSAGE else DEFAULT_VIEW_ONLY
    case Group(_, owner, recipients, permissions, moderators) =>
      if owner == us.id || us.id in moderators then GRANT_ALL_SAFE
      else if us.id in recipients then
        DEFAULT_VIEW_ONLY + (if permissions.Some? then permissions.value else DEFAULT_DIRECT_MESSAGE)
      else {}
    case TextChannel(_, _, _, _) => {}
  }

  /** Outside servers those who take part see the channel, and nobody else has any permission there. */
  lemma ParticipantsSee(us: User, channel: Channel, mayMessage: bool)
    requires !channel.TextChannel?
    ensures VIEW_CHANNEL in PersonalValue(us, channel, mayMessage) <==> TakesPart(us, channel)
    ensures !TakesPart(us, channel) ==> PersonalValue(us, channel, mayMessage) == {}
  {
  }

  /** The status between two users, from their records: an owner's bot counts as the owner. */
  ghost predicate Status(us: User, other: User, status: Relationship) {
    if us.id == other.id || other.bot == Some(us.id) then status == Self
    else
      || (exists i: nat :: FirstAt(us.relations, other.id, i) && us.relations[i].status == status)
      || (status == Unrelated && forall j :: 0 <= j < |us.relations| ==> us.relations[j].id != other.id)
  }

  lemma RelationshipIsStatus(us: User, other: User, status: Relationship)
    ensures Status(us, other, status) <==> status == RelationshipTo(us, Some(other))
  {
    forall i: nat
      ensures FirstAt(us.relations, other.id, i) ==> RelationIn(us.relations, other.id) == us.relations[i].status
    {
      FirstRelationCounts(us.relations, other.id, i);
    }
    if exists j :: 0 <= j < |us.relations| && us.relations[j].id == other.id {
      var i := SomeFirst(us.relations, other.id);
    } else {
      FirstRelationCounts(us.relations, other.id, 0);
    }
  }

  /**
   Everything is allowed to the privileged, to users themselves and to friends. Of the others, those who are blocked,
   have a request pending or share a connection have access; only a connection without a block shows the profile;
   and only such a connection with a bot on either side lets one write.
   */
  lemma UserPermissionsIff(us: User, other: User, mutual: bool, status: Relationship, flag: Flag)
    requires Status(us, other, status)
    ensures var all := us.privileged || us.id == other.id || status == Friend;
      var blocked := status == Blocked || status == BlockedOther;
      flag in UserValue(us, Some(other), mutual) <==>
        || all
        || (flag == ACCESS && (blocked || mutual || status == Incoming || status == Outgoing))
        || (flag == VIEW_PROFILE && !blocked && mutual)
        || (flag == MESSAGE_USER && !blocked && mutual && (us.bot.Some? || other.bot.Some?))
  {
    RelationshipIsStatus(us, other, status);
  }

  /** Against nobody in particular there is only what a privileged user has. */
  lemma NobodysPermissions(us: User, flag: Flag)
    ensures flag in UserValue(us, None, false) <==> us.privileged
  {
  }

  /**
   A user who is not blocked may be written to exactly by friends, themselves, the privileged, and bots or
   their peers with a mutual connection.
   */
  lemma MayMessageIff(us: User, other: Option<User>, mutual: bool)
    ensures MESSAGE_USER in UserValue(us, other, mutual) <==>
      || us.privileged || SameUser(us, other) || RelationshipTo(us, other).Friend?
      || (&& !RelationshipTo(us, other).Blocked? && !RelationshipTo(us, other).BlockedOther?
          && mutual && AnyBot(us, other))
  {
  }
}
