/**
 What the permission queries answer from the stored records: what a query already knows makes no difference as long
 as it is what is stored, and in personal channels each flag is decided by who takes part.
 */
module StoredAnswers {
  import opened Models
  import opened Permissions
  import opened PersonalChannels
  import opened ChannelPermissions

  /** Every record is stored under its own id. */
  ghost predicate Keyed(db: Database) {
    && (forall id :: id in db.servers ==> db.servers[id].id == id)
    && (forall id :: id in db.users ==> db.users[id].id == id)
  }

  function Stored<K, T>(records: map<K, T>, key: K): Option<T> {
    if key in records then Some(records[key]) else None
  }

  // ----- Text channels -----

  /**
   For a channel of a stored server, a query that knows nothing, or another server, or what is stored, gives the same
   possible answers: those of the stored server and the stored membership.
   */
  lemma ServerAnswersFromRecords(
    value: Mask, db: Database, us: User, channel: Channel, server: Option<Server>, member: Option<Member>, now: int)
    requires Keyed(db) && channel.TextChannel? && channel.server in db.servers
    requires server.Some? && server.value.id == channel.server ==> server.value == db.servers[channel.server]
    requires member.Some? ==> member == Stored(db.members, (channel.server, us.id))
    ensures TextChannelResult(value, db, us, channel, server, member, now) <==>
      OneUserResult(value, us, db.servers[channel.server], Stored(db.members, (channel.server, us.id)), channel, now)
  {
  }

  /** What a query knows counts even if something else is stored, but only for the channel's own server. */
  lemma KnownRecordsCount(
    value: Mask, db: Database, us: User, channel: Channel, server: Server, member: Member, now: int)
    requires channel.TextChannel? && server.id == channel.server
    ensures TextChannelResult(value, db, us, channel, Some(server), Some(member), now) <==>
      OneUserResult(value, us, server, Some(member), channel, now)
  {
  }

  /** Without a stored server a query that knows none has nothing to answer with. */
  lemma UnknownServerAnswersNothing(
    value: Mask, db: Database, us: User, channel: Channel, member: Option<Member>, now: int)
    requires channel.TextChannel? && channel.server !in db.servers
    ensures TextChannelResult(value, db, us, channel, None, member, now) <==> value == {}
  {
  }

  // ----- Personal channels -----

  /** The first recipient of a direct message who is somebody else is `other`. */
  ghost predicate Partners(channel: Channel, us: User, other: string) {
    channel.DirectMessage? &&
    exists i :: 0 <= i < |channel.recipients| && channel.recipients[i] == other != us.id
      && forall j :: 0 <= j < i ==> channel.recipients[j] == us.id
  }

  lemma {:induction false} PartnerIsFirstOther(recipients: seq<string>, us: string, i: nat)
    requires i < |recipients| && recipients[i] != us && forall j :: 0 <= j < i ==> recipients[j] == us
    ensures Partner(recipients, us) == Some(recipients[i])
    decreases |recipients|
  {
    if i > 0 {
      PartnerIsFirstOther(recipients[1..], us, i - 1);
    }
  }

  /**
   In a direct message with a stored partner one may write if and only if the partner may be written to, by the
   relationship and the stored connection; those who take part read in any case, and nobody else does anything.
   */
  lemma DirectMessageAnswer(
    value: Mask, db: Database, us: User, channel: Channel, other: string, user: Option<User>, now: int)
    requires Keyed(db) && !us.privileged && Partners(channel, us, other) && other in db.users
    requires ChannelResult(value, db, us, Some(channel), user, None, None, None, now)
    ensures var mayWrite := MESSAGE_USER in UserValue(us, Some(db.users[other]), (us.id, other) in db.connections);
      value == if us.id !in channel.recipients then {}
               else {VIEW_CHANNEL, READ_MESSAGE_HISTORY} + if !mayWrite then {} else
                 {SEND_MESSAGE, INVITE_OTHERS, SEND_EMBEDS, UPLOAD_FILES, CONNECT, SPEAK, LISTEN, VIDEO,
                  MANAGE_CHANNEL, REACT}
  {
    DirectMessagePartner(db, us, channel, other, user);
  }

  /** A connection that the query has already looked up is not looked up again. */
  lemma KnownConnectionCounts(
    value: Mask, db: Database, us: User, channel: Channel, other: string, mutual: bool, now: int)
    requires Keyed(db) && !us.privileged && Partners(channel, us, other) && other in db.users
    requires us.id in channel.recipients
    requires ChannelResult(value, db, us, Some(channel), None, None, None, Some(mutual), now)
    ensures SEND_MESSAGE in value <==> MESSAGE_USER in UserValue(us, Some(db.users[other]), mutual)
  {
    DirectMessagePartner(db, us, channel, other, None);
  }

  lemma DirectMessagePartner(db: Database, us: User, channel: Channel, other: string, known: Option<User>)
    requires Partners(channel, us, other) && other in db.users
    ensures KnownUser(db, channel, us, known) == Some(db.users[other])
  {
    var i :| 0 <= i < |channel.recipients| && channel.recipients[i] == other != us.id
      && forall j :: 0 <= j < i ==> channel.recipients[j] == us.id;
    PartnerIsFirstOther(channel.recipients, us.id, i);
  }

  /** The owner and the moderators of a group may do everything, other recipients view it and what the group allows. */
  lemma GroupAnswer(
    value: Mask, db: Database, us: User, channel: Channel, user: Option<User>, mutual: Option<bool>, now: int,
    flag: Flag)
    requires !us.privileged && channel.Group?
    requires ChannelResult(value, db, us, Some(channel), user, None, None, mutual, now)
    ensures flag in value <==>
      || ((channel.owner == us.id || us.id in channel.moderators) && flag < 52)
      || (&& channel.owner != us.id && us.id !in channel.moderators && us.id in channel.recipients
          && (|| flag == VIEW_CHANNEL || flag == READ_MESSAGE_HISTORY
              || (channel.permissions.Some? && flag in channel.permissions.value)
              || (channel.permissions.None? && flag in DEFAULT_DIRECT_MESSAGE)))
  {
  }

  /** One's own saved messages are one's own alone. */
  lemma SavedMessagesAnswer(
    value: Mask, db: Database, us: User, channel: Channel, user: Option<User>, mutual: Option<bool>, now: int,
    flag: Flag)
    requires !us.privileged && channel.SavedMessages?
    requires ChannelResult(value, db, us, Some(channel), user, None, None, mutual, now)
    ensures flag in value <==> channel.user == us.id && flag < 52
  {
  }

  // ----- Lists of members -----

  /** The entry of the list that counts for a user is the last one, and without one there is no membership. */
  lemma {:induction false} LastEntryCounts(members: seq<Member>, id: string, i: nat)
    ensures i < |members| && members[i].user == id && (forall j :: i < j < |members| ==> members[j].user != id) ==>
      MemberOf(members, id) == Some(members[i])
    ensures (forall j :: 0 <= j < |members| ==> members[j].user != id) ==> MemberOf(members, id) == None
    decreases |members|
  {
    if members != [] {
      var init := members[..|members| - 1];
      LastEntryCounts(init, id, i);
      if i < |init| && members[|members| - 1].user != id {
        assert init[i] == members[i];
      }
    }
  }

  /** With one record per user everybody asked about gets an answer of their own. */
  lemma DistinctUsersAnswered(users: seq<User>, i: nat)
    requires i < |users| && forall a, b :: 0 <= a < b < |users| ==> users[a].id != users[b].id
    ensures LastOfId(users, i, |users|)
  {
  }
}
