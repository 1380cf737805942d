/**
 The records shared by the permission calculus and the event listener, reduced
 to the fields those two read.

 A 64-bit permission mask is the set of its bits: `a | b` is union, `a & b` is
 intersection and `a & !b` is difference. The signed form of an override used in
 the database converts to the unsigned one by a bit-preserving cast, so both are
 the same set.
 */
module Models {

  datatype Option<+T> = None | Some(value: T)

  type Flag = n: nat | n < 64

  type Mask = set<Flag>

  datatype Override = Override(allow: Mask, deny: Mask)

  datatype Role = Role(rank: int, permissions: Override)

  datatype Server = Server(
    id: string,
    owner: string,
    channels: seq<string>,
    roles: map<string, Role>,
    defaultPermissions: Mask)

  datatype Member = Member(
    server: string,
    user: string,
    roles: seq<string>,
    timeout: Option<int>,
    canPublish: bool,
    canReceive: bool)
  {
    predicate InTimeout(now: int) {
      timeout.Some? && timeout.value > now
    }
  }

  datatype Relationship = Unrelated | Self | Friend | Outgoing | Incoming | Blocked | BlockedOther

  datatype Relation = Relation(id: string, status: Relationship)

  /** A user; for a bot, the id of its owner is given. */
  datatype User = User(
    id: string,
    privileged: bool,
    bot: Option<string>,
    relations: seq<Relation>)

  datatype Channel =
    | SavedMessages(id: string, user: string)
    | DirectMessage(id: string, recipients: seq<string>)
    | Group(
        id: string,
        owner: string,
        recipients: seq<string>,
        permissions: Option<Mask>,
        moderators: seq<string>)
    | TextChannel(
        id: string,
        server: string,
        defaults: Option<Override>,
        rolePermissions: map<string, Override>)

  /** The status of the first entry for a user. */
  function RelationIn(relations: seq<Relation>, id: string): Relationship {
    if relations == [] then Unrelated
    else if relations[0].id == id then relations[0].status
    else RelationIn(relations[1..], id)
  }
}
