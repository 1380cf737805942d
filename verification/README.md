# Verification of the chat backend's state machines

This project models the parts of the backend in which state, order or arithmetic decide correctness, and
proves what they keep over every run. With Dafny 4.11, `dafny verify dfyconfig.toml` checks all of it.

- **Permissions** (`Models`, `Permissions`, `RoleRanking`, `Approval`, `PersonalChannels`,
  `ChannelPermissions`, `HeldRoles`, `StoredAnswers`, `Relations`). Overrides are applied in rank order; the
  calculation for many members at once agrees with the calculation for one; an approved change of an override
  hands out nothing the approver lacks. A 64-bit mask is modelled as the set of its bits. The code combines
  masks by `|`, `&`, `!` and equality, which are union, intersection, difference and set equality. In the
  permissions against a user it also adds flags, always different ones, and such a sum is their union.
- **Client connections** (`Subscriptions`, `Events`, `ClientState`, `Listener`, `TopicEffects`,
  `ChannelTopics`, `CacheEffects`, `ClientView`). A connection keeps a local set of topics and a pending
  change. Local and remote apply that change in opposite orders, so they agree only if no topic is on both
  sides of it. The listener theorem gives the exact condition, and shows that it holds on every run over ids
  as the service issues them: no id ends in the letter that marks a member topic, and no channel has the id of
  a server.
- **Message broker** (`DrainFilter`, `BrokerModel`, `MessageFate`, `DeviceCap`, `RateCounters`, `Broker`,
  `Heartbeats`, `Lifetimes`, `SendInterleaving`, `CounterInterleaving`). Device registries with a cap, offline
  queues, rate counters and the purge-epoch filter; once with every function atomic and a ledger of each
  message's fate, once with a send split into its two round trips, and a drain into its read and its deletion.
- **Acknowledgement workers** (`AckModel`, `AckWorker`, `AckNewest`, `AckTiming`). Several workers share one
  queue and batch what they take; every single message is followed from the queue to the handler.
- **Voice presence** (`VoiceModel`, `VoicePresence`, `VoiceStates`, `VoiceInterleaving`). Mirrored sets, the
  active set, healing reads and cleanup; once with every function atomic, once split into round trips.
- **Limiters, beacon and signer** (`RateLimiter`, `TokenBucket`, `Beacon`, `Sessions`, `Claims`, `MfaCodes`).
- **Mention parser** (`MentionParser`). A buffering iterator refines a recursive specification.

Code that changes state is a class whose methods are proved against functions of the state before; the lemmas
are about those functions and about runs of them. `Collections` holds facts about finite sets and sequences.

Some statements one might expect are false of the code. Each has the exact condition under which it holds: the
bulk and one-user calculations for outsiders (`OutsiderAgreementIff`) and for members (`EqualAnswersIff`),
topics of a server that was left (`LeavingEndsAllIff`), a channel's topic following its visibility
(`TopicFollowsIff`), overrides inside a channel (`ChannelReplacementBoundedIff`), harmless replacements being
accepted (`MayReplaceIffNoGain`), map order and equal ranks (`OrderMattersIff`), shared ids (`RunAgreesIff`),
queue expiry and ownership while sends are under way (`RunExpiresIff`, `RunOwnedIff`), rate windows that close
(`SenderWindowsCloseIff`, `PairWindowsCloseIff`, `WindowsCloseIff`), eight devices (`NineMayRemainIff`),
presence in two channels (`LeaveSparesStateIff`), the voice sets while calls are under way (`ActiveSoundIff`,
`MirrorIff`), hashes after their owner leaves (`UnownedUntilClaimed`), recreated tokens (`CountsAllRowsIff`),
superseded codes (`OlderCodeAcceptedIff`). Where the comments of the code promise a queue of at most 100
messages or eight devices, the model follows the code: 100 + k - 1 with k concurrent sends, and nine devices
when as many were seen no earlier than the new one. Where they call a drain atomic the code reads and deletes
in two calls, and `SplitDrainLoses` says exactly what is lost between them.

Clock readings are parameters. Where a function reads the clock several times the model keeps the readings
apart if a property depends on it (the rate limiter, a new acknowledgement task) and uses one reading per call
otherwise.

## Model

| member | source | states |
|---|---|---|
| `Permissions.StackCollapses` | crates/core/permissions/src/models/mod.rs:24-47 | Any list of overrides acts on every value like one override computed from the list. |
| `Permissions.LastMentionDecides` | crates/core/permissions/src/models/mod.rs:24-37 | Each flag is decided by the last override that mentions it; inside one override deny beats allow. |
| `Permissions.SilentStackKeepsFlag` | crates/core/permissions/src/models/mod.rs:24-37 | Overrides that do not mention a flag leave it as it was. |
| `Permissions.StackKeepsAgreement` | crates/core/permissions/src/models/mod.rs:24-47 | Two values that agree on a mask still agree on it after the same overrides. |
| `Permissions.StackCannotAddGain` | crates/core/permissions/src/models/mod.rs:24-47 | The same overrides never widen the difference between two values. |
| `Permissions.PermissionValue.ApplyStack` | crates/core/permissions/src/impl.rs:58-62 | The loop over the role overrides computes the stack applied in order. |
| `RoleRanking.OrderByRank` | crates/core/database/src/util/permissions.rs:162-173 | The sort lists exactly the applicable roles, once each, largest rank first, whatever order the map yields them in. |
| `RoleRanking.CollectStack` | crates/core/database/src/util/permissions.rs:154-177 | The collected overrides are those of the member's roles in rank order. |
| `RoleRanking.TopRoleDecides` | crates/core/database/src/util/permissions.rs:162-173 | In any result of the sort a flag is decided by a role of smallest rank number among those that mention it. |
| `RoleRanking.TopRoleCanSpeakLast` | crates/core/database/src/util/permissions.rs:162-173 | Each such role decides the flag in some result of the sort. |
| `RoleRanking.OrderMattersIff` | crates/core/database/src/util/permissions.rs:162-173 | The map's iteration order can change a flag if and only if two top roles of equal rank disagree on it. |
| `RoleRanking.DistinctRanksFixOutcome` | crates/core/database/src/util/permissions.rs:162-173 | With distinct ranks every result of the sort gives the same value. |
| `RoleRanking.SmallestRankWins` | crates/core/database/src/util/permissions.rs:162-173 | With distinct ranks the mentioning role of smallest rank number wins. |
| `ChannelPermissions.PermissionQuery.SetServerFromChannel` | crates/core/database/src/util/permissions.rs:360-390 | A known server of the right id is kept, otherwise it is fetched; a failed fetch changes nothing. |
| `ChannelPermissions.PermissionQuery.AreWeAMember` | crates/core/database/src/util/permissions.rs:125-143 | Membership is answered from the known member or the database, and remembered. |
| `ChannelPermissions.PermissionQuery.CalculateUserPermissions` | crates/core/permissions/src/impl.rs:8-46 | The value against another user, from the relationship, the mutual connection and who is a bot. |
| `PersonalChannels.MayMessageIff` | crates/core/permissions/src/impl.rs:8-46 | Exactly who may be written to: oneself, friends, and without a block bots or their peers with a mutual connection, or anybody by the privileged. |
| `ChannelPermissions.PermissionQuery.CalculateServerPermissions` | crates/core/permissions/src/impl.rs:49-78 | The server value for anybody: privileged and owner everything, outsiders nothing, members the defaults, role stack, voice flags and timeout. |
| `ChannelPermissions.PermissionQuery.CalculateChannelPermissions` | crates/core/permissions/src/impl.rs:81-150 | The one-user value in any kind of channel, from what the query knows at the start. |
| `PersonalChannels.ParticipantsSee` | crates/core/permissions/src/impl.rs:86-121 | Outside servers those who take part see the channel, and nobody else has any permission there. |
| `ChannelPermissions.BulkServerPermissions` | crates/core/database/src/util/bulk_permissions.rs:316-345 | The bulk server value, which has no voice flags. |
| `ChannelPermissions.BulkMemberPermissions` | crates/core/database/src/util/bulk_permissions.rs:256-310 | The bulk channel value of one user: membership is tested before privilege. |
| `ChannelPermissions.CalculateMembersPermissions` | crates/core/database/src/util/bulk_permissions.rs:246-313 | The response has one entry per user, computed from that user and their membership. |
| `ChannelPermissions.MembersCanSeeChannel` | crates/core/database/src/util/bulk_permissions.rs:28-56 | Who of the given users or members sees the channel; a missing list is fetched. |
| `ChannelPermissions.MemberValuesAgree` | crates/core/database/src/util/bulk_permissions.rs:256-345 | From the same stacks both calculations see the same channels; the one-user value is contained in the bulk value, and equal when nothing is cut. |
| `ChannelPermissions.BulkAgreesWithOneUser` | crates/core/database/src/util/bulk_permissions.rs:256-345 | For every member with distinct role ranks the bulk and one-user calculations agree on viewing the channel, and on the whole value when the member is not timed out or muted and can view it. |
| `ChannelPermissions.MemberValuesEqualIff` | crates/core/database/src/util/bulk_permissions.rs:256-345 | From the same stacks the two values are equal if and only if the bulk value is not that of a hidden channel, holds nothing a timeout removes, and a refused voice permission only where the channel grants it. |
| `ChannelPermissions.EqualAnswersIff` | crates/core/database/src/util/bulk_permissions.rs:256-345 | With distinct role ranks the two answers for a member are the same value if and only if the user is privileged or the owner or that holds. |
| `ChannelPermissions.OutsiderAgreementIff` | crates/core/database/src/util/bulk_permissions.rs:256-275 | Without a membership the two agree if and only if the user is neither privileged nor the owner. |
| `HeldRoles.ServerFlagDecided` | crates/core/database/src/util/permissions.rs:154-177 | Each flag of a member's server permissions is decided by a role the member holds, of smallest rank among the held ones that mention it, or by the defaults if none does, unless the voice flags or a timeout take it away. |
| `HeldRoles.OnlyHeldRolesGrant` | crates/core/database/src/util/permissions.rs:154-177 | A member has no permission but the defaults and what a role they hold allows. |
| `HeldRoles.OneUserFlagDecided` | crates/core/database/src/util/permissions.rs:252-290 | In a channel likewise: the server's verdict, the channel's defaults, then its overrides for the roles held, then the timeout; and nothing without viewing the channel. |
| `HeldRoles.BulkFlagDecided` | crates/core/database/src/util/bulk_permissions.rs:256-345 | The bulk value likewise, without voice flags and without the timeout in the channel. |
| `HeldRoles.UnheldRoleIsIrrelevant` | crates/core/database/src/util/permissions.rs:154-290 | Removing a role the member does not hold, and its override in the channel, changes no possible result of any of the three calculations. |
| `StoredAnswers.ServerAnswersFromRecords` | crates/core/database/src/util/permissions.rs:125-143 | Whatever a query knows that agrees with what is stored, it answers for a server channel from the stored server and membership. |
| `StoredAnswers.KnownRecordsCount` | crates/core/database/src/util/permissions.rs:360-390 | A known server of the right id and a known member are used even if something else is stored. |
| `StoredAnswers.DirectMessageAnswer` | crates/core/permissions/src/impl.rs:94-106 | The exact value in a direct message with a stored partner, from the relationship and the stored connection. |
| `StoredAnswers.KnownConnectionCounts` | crates/core/database/src/util/permissions.rs:96-112 | A connection the query has looked up is not looked up again. |
| `StoredAnswers.GroupAnswer` | crates/core/permissions/src/impl.rs:107-121 | Exactly which flags owner, moderators and other recipients of a group have. |
| `StoredAnswers.LastEntryCounts` | crates/core/database/src/util/bulk_permissions.rs:246-313 | Of a user's entries in a member list the last counts, and without one there is no membership. |
| `PersonalChannels.UserPermissionsIff` | crates/core/permissions/src/impl.rs:8-46 | Exactly which flags one user has against another, from the status between them, the connection and who is a bot. |
| `PersonalChannels.RelationshipIsStatus` | crates/core/database/src/util/permissions.rs:52-84 | The status is that of the first relation about the other user; a bot's owner counts as the bot. |
| `Approval.AcceptedReplacementIsBounded` | crates/core/permissions/src/models/mod.rs:92-113 | An accepted replacement of one override anywhere in a stack gives no member, whatever the base value and member flags, a server permission the approver lacks. |
| `Approval.NoGainIff` | crates/core/permissions/src/models/mod.rs:92-113 | A replacement gains nothing beyond the approver at any value if and only if what it newly grants and what it no longer denies are the approver's own. |
| `Approval.MayReplaceIffNoGain` | crates/core/permissions/src/models/mod.rs:92-113 | The check accepts exactly the harmless replacements whose newly allowed flags, even those denied again, are the approver's own; any other harmless one it refuses. |
| `Approval.OverlappingOverrideRefusedThoughHarmless` | crates/core/permissions/src/models/mod.rs:92-113 | With an overlapping override the check can refuse a replacement that gains nothing. |
| `Approval.ChannelReplacementBoundedIff` | crates/core/permissions/src/impl.rs:128-143 | Inside a channel the bound fails if and only if the stack hid the channel before and shows it after, and what both stacks hold beneath is more than the approver has. |
| `Approval.ChannelReplacementMayUncover` | crates/core/permissions/src/impl.rs:128-143 | An input on which it fails. |
| `Subscriptions.FlushAgreesIff` | crates/bonfire/src/events/state.rs:106-150 | Applying additions then removals locally and removals then additions remotely gives equal sets if and only if no id is on both sides. |
| `Subscriptions.ActiveDisjointIff` | crates/bonfire/src/events/state.rs:106-135 | Reports about active servers leave the change without contradiction if and only if each fits what is pending for its topic. |
| `Subscriptions.ActivePanicsIff` | crates/bonfire/src/events/state.rs:190-210 | A report aborts the connection if and only if it removes a topic that was subscribed while a reset was pending. |
| `Events.RecalculationResult` | crates/bonfire/src/events/impl.rs:330-396 | After a recalculation the server's cached channels are the viewable ones among those cached and those fetched; each is subscribed, dropped ones are neither cached nor subscribed, everything else is unchanged. |
| `Events.HandlingKeepsTrack` | crates/bonfire/src/events/impl.rs:424-686 | After any event the pending change still leads from the flushed set to the local one. |
| `Events.EventDisjointIff` | crates/bonfire/src/events/impl.rs:424-686 | From a flushed state an event puts an id on both sides of the change if and only if it joins a server whose own topic is also the id of an invisible channel of that server. |
| `Events.SelfStaysCached` | crates/bonfire/src/events/impl.rs:644-667 | The connection's own user stays cached, so rewriting a message's relationship never aborts. |
| `ClientState.State.From` | crates/bonfire/src/events/state.rs:79-103 | A new connection starts with the two user topics and a pending reset. |
| `ClientState.State.ResetState` | crates/bonfire/src/events/state.rs:161-165 | The local set is emptied and a reset is pending. |
| `ClientState.State.InsertSubscription` | crates/bonfire/src/events/state.rs:167-188 | Only an id not yet subscribed is recorded, and a pending reset records nothing. |
| `ClientState.State.RemoveSubscription` | crates/bonfire/src/events/state.rs:190-210 | Only a subscribed id is recorded; during a pending reset that aborts. |
| `ClientState.State.ApplyState` | crates/bonfire/src/events/state.rs:106-153 | Reports are applied, the change is handed out as it stands and cleared, and the local set follows it. |
| `ClientState.State.SubscribeReady` | crates/bonfire/src/events/impl.rs:282-300 | After the first payload the subscriptions are exactly the private topic, users, servers, channels and, for bots, the member topics. |
| `ClientState.State.RecalculateServer` | crates/bonfire/src/events/impl.rs:330-396 | Cache and subscriptions become those of the specification, and the event sent on is a bulk of one delete per dropped channel, one create per fetched channel, then the original event. |
| `ClientState.State.HandleChannelUpdate` | crates/bonfire/src/events/impl.rs:457-492 | A channel update turns into a create or a delete when visibility changes, with the subscription following. |
| `ClientState.State.HandleServerCreate` | crates/bonfire/src/events/impl.rs:508-538 | Joining a server caches it with its channels, subscribes to its topics and recalculates. |
| `ClientState.State.ForgetServer` | crates/bonfire/src/events/impl.rs:557-580 | Leaving drops the server, the channels it lists, the membership, and the topics of that server and those channels; no other topic. |
| `Events.LeavingEndsAllIff` | crates/bonfire/src/events/impl.rs:557-580 | Leaving ends everything subscribed because of a server if and only if the cached server lists it: a bot's member topic stays, and so does a cached channel the server does not list. |
| `TopicEffects.ChannelUpdateTopics` | crates/bonfire/src/events/impl.rs:457-492 | A channel update changes at most the channel's own topic: when the channel appears or disappears it is subscribed exactly if visible and the client is told so, otherwise topics and event stay. |
| `TopicEffects.VisibleChannelsRedetermined` | crates/bonfire/src/events/impl.rs:330-396 | After a join and after a change of default permissions, own roles or a role one holds, each known channel of the server is cached and subscribed exactly if visible now, each other listed one is fetched exactly if stored and visible, and all other channels and topics stay. |
| `TopicEffects.OtherPatchesAreQuiet` | crates/bonfire/src/events/impl.rs:539-632 | Every other update of a server, a member or a role leaves all topics and cached channels alone. |
| `TopicEffects.TopicsNamed` | crates/bonfire/src/events/impl.rs:424-686 | Every remaining event changes exactly the topics it names. |
| `TopicEffects.InStepKeptIff` | crates/bonfire/src/events/impl.rs:424-686 | From a state in which a channel is subscribed exactly if cached and visible, an event leaves it so if and only if it neither creates a channel the user may not see nor changes its visibility without deciding about its topic. |
| `TopicEffects.QueriesAreLocal` | crates/bonfire/src/events/impl.rs:20-45 | Visibility judged from the user, the channel and the cached server and membership of that channel depends on no other channel. |
| `ChannelTopics.TopicFollowsIff` | crates/bonfire/src/websocket.rs:307-440 | Over every run of the listener the pub/sub server delivers a channel, after every flush, exactly if the user may see it, if and only if no event is silent in that way. |
| `ChannelTopics.HandoverIsSilent` | crates/bonfire/src/events/impl.rs:539-553 | Such an event: a new owner of a server, after which the former one stays subscribed to a channel only owners see. |
| `ClientView.ReadyTopics` | crates/bonfire/src/events/impl.rs:282-300 | Exactly which topics the first payload subscribes. |
| `ClientView.ClientKeepsUp` | crates/bonfire/src/events/impl.rs:330-396 | A client that knows exactly the cached channels knows exactly them again after handling what is sent on for any change of a server, the own membership or a role. |
| `ClientView.ClientLearns` | crates/bonfire/src/events/impl.rs:450-500 | And it learns of each channel that appears, disappears, is created or deleted. |
| `CacheEffects.MemberUpdateReadsBack` | crates/bonfire/src/events/impl.rs:581-595 | Each field given in an update of the own membership reads back, a cleared one as its default, any other as before; other memberships stay. |
| `CacheEffects.ServerUpdateReadsBack` | crates/bonfire/src/events/impl.rs:539-553 | The same for a server. |
| `CacheEffects.RoleUpdateReadsBack` | crates/bonfire/src/events/impl.rs:596-615 | The same for a role. |
| `CacheEffects.RoleDeleteReadsBack` | crates/bonfire/src/events/impl.rs:616-632 | A deleted role is gone from its server, and nothing else is. |
| `CacheEffects.ChannelUpdateReadsBack` | crates/bonfire/src/events/impl.rs:457-492 | The same for a group and a text channel. |
| `CacheEffects.LeaveForgets` | crates/bonfire/src/events/impl.rs:557-580 | Leaving forgets the server, the membership and the listed channels, and nothing of other servers. |
| `CacheEffects.FetchedAfterDropping` | crates/bonfire/src/events/impl.rs:366-396 | A listed channel is fetched if it is stored and visible to a cache without the channels just dropped. |
| `CacheEffects.CanSubscribeIff` | crates/bonfire/src/events/impl.rs:64-91 | Exactly whom one may follow: oneself, friends, pending requests, and whoever shares a direct message or group. |
| `CacheEffects.FollowedIff` | crates/bonfire/src/events/impl.rs:644-652 | After news of a relationship the other user is followed exactly then, judged with the news. |
| `CacheEffects.WithheldIff` | crates/bonfire/src/events/impl.rs:633-643 | In every run of events an update of a user is withheld if and only if its id is among the last twenty passed on. |
| `CacheEffects.MessageTellsOwnRelationship` | crates/bonfire/src/events/impl.rs:654-667 | A message's relationship is told by the receiver's first relation about its author. |
| `ClientState.State.HandleServerChange` | crates/bonfire/src/events/impl.rs:539-595 | A server or own-member update patches the cache and recalculates when permissions or roles changed. |
| `ClientState.State.HandleRoleChange` | crates/bonfire/src/events/impl.rs:596-632 | A role update or deletion patches the cache and recalculates when the member holds the role. |
| `ClientState.State.HandleTopicEvent` | crates/bonfire/src/events/impl.rs:644-652 | Events about one topic add or remove that topic and nothing else. |
| `ClientState.State.HandleIncomingEvent` | crates/bonfire/src/events/impl.rs:424-686 | Every event leaves the cache, the subscriptions and the forwarded event of the specification. |
| `Listener.Flush` | crates/bonfire/src/websocket.rs:309-346 | One flush passes the pending change on to the pub/sub server, removals first. |
| `Listener.Listen` | crates/bonfire/src/websocket.rs:307-440 | The loop computes the specified run: it aborts exactly when the run does, and reports exactly whether both sets agreed after every flush. |
| `Listener.FlushAgreedIff` | crates/bonfire/src/websocket.rs:309-346 | A flush leaves both sets equal if and only if the change has no contradiction, or it was a reset. |
| `Listener.RunAgreesIff` | crates/bonfire/src/websocket.rs:307-440 | Over a whole run the sets agree after every flush if and only if, turn by turn, the reports fit what is pending and no event joins a server whose own topic is the id of one of its invisible channels. |
| `Listener.RunAbortsIff` | crates/bonfire/src/events/state.rs:190-210 | A run aborts if and only if a reset is pending at its first flush and that flush finds an expired server whose member topic is subscribed. |
| `Listener.ProperRunsAgree` | crates/bonfire/src/websocket.rs:307-440 | Over ids as the service issues them, every run from the initial reset agrees after every flush and never aborts. |
| `Listener.ReadyIsProper` | crates/bonfire/src/events/impl.rs:282-300 | The state after the first payload is one from which that holds. |
| `Listener.SharedIdMakesThemPart` | crates/bonfire/src/websocket.rs:307-440 | A run in which a server and one of its channels share an id and the sets come apart. |
| `DrainFilter.FilterPrePurge` | crates/core/database/src/broker/mod.rs:449-492 | The memoised filter keeps exactly the messages not older than the epoch looked up at their channel's first use. |
| `DrainFilter.MemoMatchesDirect` | crates/core/database/src/broker/mod.rs:449-492 | That is the subsequence a separate lookup for every message would keep. |
| `DrainFilter.NothingStaleIsReturned` | crates/core/database/src/broker/mod.rs:449-492 | If epochs never decrease and its channel's lookup succeeds, nothing older than the epoch at that lookup, or at any moment before, is returned. |
| `DrainFilter.NothingFreshIsDropped` | crates/core/database/src/broker/mod.rs:449-492 | Whether or not the lookup fails, nothing at or above its channel's epoch at that moment is dropped, epochs being counts. |
| `DrainFilter.KeptIff` | crates/core/database/src/broker/mod.rs:449-492 | A message is kept if and only if it is no envelope or not below the epoch found at its channel's first envelope, 0 if that lookup failed or the channel was never purged. |
| `BrokerModel.EveryRunIsAccountedFor` | crates/core/database/src/broker/mod.rs:210-492 | In every run of atomic operations: what a device's queue accepted is what was taken from it and what it holds, in order; every queue expires, is within its depth, and belongs to a registered device until the whole registry has lapsed. |
| `BrokerModel.EveryBatchIsExplained` | crates/core/database/src/broker/mod.rs:449-492 | In every run what left a queue left it whole, batch after batch at strictly increasing steps: by a drain of its own device that returned what the epochs stored at that step keep of it, or by its removal or expiry. |
| `BrokerModel.EveryPushIsRecorded` | crates/core/database/src/broker/mod.rs:421-434 | In every run the accepted messages were pushed one after the other at strictly increasing steps, each by an accepted send to that device. |
| `MessageFate.PushesPrecedeClosings` | crates/core/database/src/broker/mod.rs:372-492 | In every run each message leaves at the first closing of its queue after its push, and what is queued was pushed after the last closing. |
| `MessageFate.EveryMessageHasOneFate` | crates/core/database/src/broker/mod.rs:372-492 | In every run each accepted message has exactly one fate: queued at its place, lost with its queue, returned at one place of one drain of its own device, or dropped by that drain as older than its channel's epoch. |
| `MessageFate.ReturnedInPushOrder` | crates/core/database/src/broker/mod.rs:449-492 | Messages come back in the order they were pushed, within a drain and across drains. |
| `MessageFate.EveryReturnedWasAccepted` | crates/core/database/src/broker/mod.rs:449-492 | Everything a drain returns is the fate of an accepted message. |
| `MessageFate.DroppedWasPrePurge` | crates/core/database/src/broker/mod.rs:449-492 | A dropped message was older than its channel's stored epoch at the step that drained it. |
| `BrokerModel.OtherQueuesUntouched` | crates/core/database/src/broker/mod.rs:449-492 | No operation on one device changes another device's queue. |
| `DeviceCap.SortByLastSeen` | crates/core/database/src/broker/mod.rs:232-247 | The sort lists every session once, oldest first, unparseable entries at the front. |
| `DeviceCap.EvictionMeetsCap` | crates/core/database/src/broker/mod.rs:227-263 | Eviction keeps the new session, removes only sessions seen no later than every other survivor, leaves at most nine, and nine only when nine were seen no earlier than the new one. |
| `DeviceCap.NineMayRemainIff` | crates/core/database/src/broker/mod.rs:227-263 | Some order of the sort leaves nine sessions if and only if more than eight, the new one among them, were seen no earlier than the new one. |
| `DeviceCap.LatestLeavesCap` | crates/core/database/src/broker/mod.rs:227-263 | With the strictly latest time at most eight remain. |
| `Broker.EveryRunCapped` | crates/core/database/src/broker/mod.rs:210-351 | In every run of registrations that evict the oldest beyond the cap and of any other operations nobody has more than nine devices. |
| `Broker.NineDevicesReached` | crates/core/database/src/broker/mod.rs:210-266 | Nine registrations of a user at one time leave nine devices. |
| `Broker.EveryRegistrationKeepsTheRecent` | crates/core/database/src/broker/mod.rs:210-266 | At every registration of a run the new session stays, only sessions seen no later than any other survivor go, and at most eight remain if its time is strictly the latest. |
| `Broker.Broker.RegisterUser` | crates/core/database/src/broker/mod.rs:210-266 | Registering is the entry followed by removals that meet the cap. |
| `Broker.Broker.RemoveDevice` | crates/core/database/src/broker/mod.rs:270-279 | Removing a device removes its entry and its queue together. |
| `Broker.Broker.RefreshUserTtl` | crates/core/database/src/broker/mod.rs:282-306 | A heartbeat updates a parseable entry and prolongs the registry. |
| `Broker.Broker.ListKnownSessions` | crates/core/database/src/broker/mod.rs:317-351 | The known sessions are listed once each, online and waiting; the stale ones are pruned with their queues. |
| `Broker.Broker.QueueOfflineMessage` | crates/core/database/src/broker/mod.rs:372-437 | The atomic send: it accepts exactly when size, both rates and depth allow. |
| `Broker.Broker.DrainOfflineQueue` | crates/core/database/src/broker/mod.rs:449-492 | A drain empties its own queue and returns the filtered content. |
| `Broker.Broker.RelayDmMessage` | crates/core/database/src/broker/mod.rs:515-568 | Every recipient but the sender is reached: each online session is counted, each waiting session is sent to, no others, and nobody's live sessions change. |
| `Heartbeats.ListedByLastHeard` | crates/core/database/src/broker/mod.rs:317-355 | A session heard of at t, by registration or heartbeat, is listed as online for 300 seconds, as waiting until 604800 are over, and then pruned, through any other operations. |
| `Heartbeats.SeenIffHeard` | crates/core/database/src/broker/mod.rs:210-306 | In every run a session is stored as last seen at t if and only if it was last heard of at t and neither removed nor lapsed since. |
| `Heartbeats.CorruptIsPruned` | crates/core/database/src/broker/mod.rs:317-351 | An entry that does not parse is always pruned, and heartbeats do not mend it. |
| `Heartbeats.EvictedWereHeardOfEarlier` | crates/core/database/src/broker/mod.rs:232-263 | At every registration of a run an unreadable session goes before a readable one, and of two readable ones the one heard of earlier. |
| `Lifetimes.QueueLivesSixHours` | crates/core/database/src/broker/mod.rs:421-434 | In every run a queue expires 21600 seconds after t if and only if the message that opened it was pushed at t; later ones do not prolong it. |
| `Lifetimes.QueueExpiresIff` | crates/core/database/src/broker/mod.rs:421-434 | The clock takes a queue away exactly then, with everything in it. |
| `Lifetimes.RegistryLivesAWeek` | crates/core/database/src/broker/mod.rs:210-306 | A registration or a heartbeat of any session prolongs the whole registry by a week. |
| `Lifetimes.EveryRegistryExpires` | crates/core/database/src/broker/mod.rs:210-306 | In every run each registry has a session and an expiry, and no expiry is left without its registry. |
| `Lifetimes.WindowLivesAMinute` | crates/core/database/src/broker/mod.rs:391-429 | An accepted send that opens a window gives it 60 seconds, a later one does not prolong it. |
| `Lifetimes.AcceptedIff` | crates/core/database/src/broker/mod.rs:372-411 | A message goes through if and only if it has at most 4096 bytes, 120 and 30 are not reached and fewer than 100 are queued. |
| `SendInterleaving.QueueDepthBounded` | crates/core/database/src/broker/mod.rs:372-437 | In every interleaving with at most k sends to a device between their two steps its queue holds at most 100 + k - 1 messages. |
| `SendInterleaving.QueueDepthReached` | crates/core/database/src/broker/mod.rs:372-437 | For every k some run reaches that bound. |
| `SendInterleaving.PairRateBounded` | crates/core/database/src/broker/mod.rs:393-413 | Between two resets of a pair's counter at most 30 sends are accepted, in any interleaving. |
| `SendInterleaving.SenderRateBounded` | crates/core/database/src/broker/mod.rs:393-413 | Between two resets of a sender's counter at most 120 are. |
| `SendInterleaving.SerialSendIsAtomic` | crates/core/database/src/broker/mod.rs:372-437 | Two steps back to back are the atomic send. |
| `SendInterleaving.RunExpiresIff` | crates/core/database/src/broker/mod.rs:421-434 | Every queue has an expiry throughout an interleaved run if and only if no write follows a read that found messages in a queue gone by then. |
| `SendInterleaving.RunOwnedIff` | crates/core/database/src/broker/mod.rs:372-437 | Every queue belongs to a registered device throughout an interleaved run if and only if no write is for a device gone by then and no registry lapses before a queue of its devices. |
| `SendInterleaving.LossDuringSendIsStale` | crates/core/database/src/broker/mod.rs:421-434 | Whatever takes a non-empty queue away between the two steps of a send makes its write such a one. |
| `SendInterleaving.OrphanReached` | crates/core/database/src/broker/mod.rs:372-437 | A run after which a write orphans its message: the device is removed during a send. |
| `SendInterleaving.StaleWriteReached` | crates/core/database/src/broker/mod.rs:421-434 | A run after which a write leaves a queue without expiry. |
| `SendInterleaving.SplitDrainLoses` | crates/core/database/src/broker/mod.rs:453-458 | Between a drain's read and its deletion, whatever happens: the deletion removes what the drain took, unless that was gone already, followed by exactly what was pushed in between, which is lost. |
| `SendInterleaving.TakenTwice` | crates/core/database/src/broker/mod.rs:453-458 | It was gone already only because something closed the queue in between, with everything the drain took still in it. |
| `SendInterleaving.SendDuringDrainLostIff` | crates/core/database/src/broker/mod.rs:453-458 | A send accepted in between is lost so if and only if the drain read something. |
| `RateCounters.SenderWindowsCloseIff` | crates/core/database/src/broker/mod.rs:391-429 | In every run of atomic operations every sender's counter has an expiry throughout if and only if no send is refused that is the first of its window. |
| `RateCounters.PairWindowsCloseIff` | crates/core/database/src/broker/mod.rs:391-429 | The same for the counters of sender and recipient. |
| `RateCounters.StrandedSenderIsLockedOut` | crates/core/database/src/broker/mod.rs:393-406 | After a refused first send the counter never resets: once 120 sends are counted, none of that sender is accepted again, to any device, whatever else happens and however much time passes. |
| `RateCounters.StrandedPairIsLockedOut` | crates/core/database/src/broker/mod.rs:393-411 | And none to that recipient once 30 are. |
| `CounterInterleaving.TimedKeptIff` | crates/core/database/src/broker/mod.rs:391-429 | With sends split, a step keeps every counter expiring, or about to be given an expiry by a send under way that counted one, if and only if it is no refused read that opens a window nobody else is about to time. |
| `CounterInterleaving.WindowsCloseIff` | crates/core/database/src/broker/mod.rs:391-429 | In every interleaving all windows are so throughout if and only if no step is such a read. |
| `CounterInterleaving.LockedOutForGood` | crates/core/database/src/broker/mod.rs:393-406 | In every interleaving a sender whose count of 120 nothing under way will ever time is never accepted again. |
| `CounterInterleaving.PairLockedOutForGood` | crates/core/database/src/broker/mod.rs:393-411 | And a count of 30 between a sender and a recipient ends all sends from one to the other. |
| `CounterInterleaving.FirstMessageToFullQueue` | crates/core/database/src/broker/mod.rs:391-429 | A run in which somebody's first message meets a full queue and leaves two such counters, its own and that of the pair. |
| `AckModel.EveryRunIsAccounted` | crates/core/database/src/tasks/ack.rs:211-308 | In every run of pushes, takes and sweeps by any number of workers, batches are in queue order, hold only messages of their key, and each single message is recorded where it is. |
| `AckModel.HandedExactlyOnce` | crates/core/database/src/tasks/ack.rs:211-308 | A queued single-message event that a worker has taken is, after that worker's first sweep 31 seconds or more after its batch was first seen, at exactly one position of exactly one batch handed over. |
| `AckModel.HandedAtMostOnce` | crates/core/database/src/tasks/ack.rs:211-308 | At no time is it handed over at two positions, and it is the message that was queued. |
| `AckModel.MessageIsSomewhere` | crates/core/database/src/tasks/ack.rs:211-308 | It is queued, or in one worker's batch for its key, or handed over, and never two of these. |
| `AckModel.DeadlineHolds` | crates/core/database/src/tasks/mod.rs:38-65 | However often it is postponed, no batch outlives a sweep 31 seconds or more after it was first seen. |
| `AckModel.FullBatchNotPostponed` | crates/core/database/src/tasks/ack.rs:258-284 | Once at the size limit and short of 65536 messages, later messages no longer postpone a batch: it does not outlive a sweep 6 seconds after its last update. |
| `AckModel.PostponesIff` | crates/core/database/src/tasks/ack.rs:264-284 | A message postpones its batch if and only if it is no mass mention and the length it brings it to, modulo 65536, is below the limit. |
| `AckModel.MassMentionFlagIff` | crates/core/database/src/tasks/ack.rs:264-271 | In every run of single-message events a batch is flagged to run at once if and only if a message after its first is a mass mention; a first message never flags it. |
| `AckModel.FlaggedTaskIsSwept` | crates/core/database/src/tasks/mod.rs:55-64 | A flagged task does not outlive any sweep of its worker. |
| `AckNewest.NewestIsKept` | crates/core/database/src/tasks/ack.rs:286-298 | In every run each task for acknowledgements and each such entry handed over holds the newest one recorded there. |
| `AckNewest.NothingOlderIsHanded` | crates/core/database/src/tasks/ack.rs:286-298 | So an acknowledgement taken is still in its key's task, or itself or a newer one for its key was handed over. |
| `AckTiming.AckHandedWhen` | crates/core/database/src/tasks/mod.rs:38-65 | In every run, after a worker took an acknowledgement, its sweep hands the task over if and only if it comes 6 seconds later or 31 after the first was seen. |
| `AckTiming.SweptIffDue` | crates/core/database/src/tasks/ack.rs:217-239 | A sweep hands over exactly the worker's tasks that are flagged, 31 seconds old or 6 seconds without an update. |
| `AckTiming.PushedIff` | crates/core/database/src/tasks/ack.rs:53-59 | An event is queued, at the end, if and only if fewer than 10000 wait. |
| `AckWorker.AckQueue.TryPush` | crates/core/database/src/tasks/ack.rs:53-59 | A full queue drops the event. |
| `AckWorker.Worker.CommitDue` | crates/core/database/src/tasks/ack.rs:217-239 | A sweep hands over every due task once and leaves the others. |
| `AckWorker.Worker.TakeOne` | crates/core/database/src/tasks/ack.rs:250-302 | One event is merged into its task or starts one. |
| `AckWorker.Worker.Turn` | crates/core/database/src/tasks/ack.rs:215-303 | One turn of the loop commits what is due and takes everything queued, in order. |
| `AckWorker.SweepMatchesWorker` | crates/core/database/src/tasks/ack.rs:217-239 | The loop's sweep is the system's. |
| `AckWorker.TakesMatchWorker` | crates/core/database/src/tasks/ack.rs:242-303 | Emptying the queue is a run of the system's take steps. |
| `VoiceModel.EveryRunIsMirrored` | crates/core/database/src/voice/mod.rs:159-289 | In every run a user is in a channel's member set if and only if the channel is in the user's set, and the active channels are exactly those with members. |
| `VoiceModel.ClearKeepsMirrorIff` | crates/core/database/src/voice/mod.rs:253-289 | Clearing a channel keeps the mirror if and only if the listed users include all its members. |
| `VoiceModel.DisconnectLeavesNothing` | crates/core/database/src/voice/mod.rs:645-668 | After a disconnect the user is in no channel, whatever servers were looked up, and nobody else has moved. |
| `VoiceModel.ReadLeavesFullStates` | crates/core/database/src/voice/mod.rs:410-438 | Reading a channel leaves exactly the members with a full state and touches no other channel. |
| `VoiceModel.LeaveSparesStateIff` | crates/core/database/src/voice/mod.rs:213-251 | Leaving one channel spares the user's state in another if and only if the two do not share it, as channels of one server do. |
| `VoiceModel.LeaveEndsOtherMembershipIff` | crates/core/database/src/voice/mod.rs:410-438 | So the next read of the other channel removes the user from it if and only if the two share it. |
| `VoiceModel.JoinThenLeave` | crates/core/database/src/voice/mod.rs:159-251 | After any run a join makes a member of an active channel with a state, and the leave undoes it. |
| `VoiceModel.DeletionLeavesNobody` | crates/core/database/src/voice/mod.rs:682-695 | In every run a deleted channel has no member, is not active and in nobody's set, its members' states are gone, and no other membership changes. |
| `VoiceStates.JoinReadsBack` | crates/core/database/src/voice/mod.rs:159-211 | The state a join returns is the one that reads back, and no other state changes. |
| `VoiceStates.UpdateReadsBack` | crates/core/database/src/voice/mod.rs:323-353 | Each given part of an update reads back, every other part and every other state stays. |
| `VoiceStates.StateSinceJoin` | crates/core/database/src/voice/mod.rs:159-353 | From a join until something ends it a state reads as joined then, receiving and not publishing, but for each part the last update that gives it. |
| `VoiceStates.OtherStatesStay` | crates/core/database/src/voice/mod.rs:159-438 | A step that is not about a state leaves it as it is. |
| `VoiceStates.StatePerServer` | crates/core/database/src/voice/mod.rs:165-198 | A join of one channel of a server reads back in every other channel of it. |
| `VoiceStates.EveryRunCurrent` | crates/core/database/src/voice/mod.rs:165-230 | In every run a user has a current channel exactly while a join time is stored. |
| `VoiceInterleaving.ActiveSoundIff` | crates/core/database/src/voice/mod.rs:159-289 | With joins, leaves and deletions split into their round trips, channels with members are active or about to be and active ones have members or are about to be removed, throughout a run, if and only if no removal or announcement comes too late. |
| `VoiceInterleaving.MirrorIff` | crates/core/database/src/voice/mod.rs:159-289 | In every interleaving the sets mirror each other throughout if and only if no deletion overlooks a member. |
| `VoiceInterleaving.AtRest` | crates/core/database/src/voice/mod.rs:203-248 | With no call under way that soundness is: active channels are exactly those with members. |
| `VoiceInterleaving.JoinDuringLeaveHidesChannel` | crates/core/database/src/voice/mod.rs:235-248 | A join after the last member's leave has counted makes its removal a late one. |
| `VoiceInterleaving.SerialLeaveIsWhole` | crates/core/database/src/voice/mod.rs:213-251 | A leave whose round trips follow each other is the whole leave; it removes the channel exactly if nobody is left. |
| `VoiceInterleaving.WholeRunsAgree` | crates/core/database/src/voice/mod.rs:159-289 | Uninterrupted, the fine steps run as the whole ones do. |
| `VoicePresence.VoiceStore.CreateVoiceState` | crates/core/database/src/voice/mod.rs:159-211 | A join enters both sets, the active set and a full state. |
| `VoicePresence.VoiceStore.DeleteVoiceState` | crates/core/database/src/voice/mod.rs:213-251 | A leave undoes both sets and the state, and the active entry when nobody is left. |
| `VoicePresence.VoiceStore.UpdateVoiceState` | crates/core/database/src/voice/mod.rs:323-353 | Only the given parts of a state change. |
| `VoicePresence.VoiceStore.GetVoiceState` | crates/core/database/src/voice/mod.rs:364-408 | A state is reported if and only if all five keys are there. |
| `VoicePresence.VoiceStore.GetChannelVoiceState` | crates/core/database/src/voice/mod.rs:410-438 | The participants reported are exactly the remaining members, once each, with their states. |
| `VoicePresence.VoiceStore.CleanupOnDisconnect` | crates/core/database/src/voice/mod.rs:645-668 | The loop leaves every channel the user was in. |
| `VoicePresence.VoiceStore.DeleteChannelVoiceState` | crates/core/database/src/voice/mod.rs:253-289 | The loop clears the channel for the listed users. |
| `VoicePresence.VoiceStore.DeleteVoiceChannel` | crates/core/database/src/voice/mod.rs:682-695 | A channel is cleared for the members it has. |
| `RateLimiter.RatelimitStorage.From` | crates/core/ratelimits/src/ratelimiter.rs:50-137 | A request is accepted exactly when units remain; an accepted one is deducted and stays within the limit, other keys are untouched. |
| `RateLimiter.EveryRunWithinLimit` | crates/core/ratelimits/src/ratelimiter.rs:50-137 | In every run of requests for a key with a clock that does not go backwards the stored entry and every window stay within the limit. |
| `RateLimiter.NoUnderflow` | crates/core/ratelimits/src/ratelimiter.rs:75-81 | No request of a run subtracts more than there is. |
| `RateLimiter.TenSecondsBounded` | crates/core/ratelimits/src/ratelimiter.rs:50-137 | Any ten seconds hold at most twice the limit. |
| `RateLimiter.TwiceTheLimitReached` | crates/core/ratelimits/src/ratelimiter.rs:50-137 | Some run reaches it. |
| `RateLimiter.KeysAreIndependent` | crates/core/ratelimits/src/ratelimiter.rs:50-137 | Each key's bucket is what the requests for that key alone make of it. |
| `RateLimiter.RefusedUntilReset` | crates/core/ratelimits/src/ratelimiter.rs:84-90 | A refused request is told exactly how long its window lasts: another is accepted if and only if it comes after that. |
| `TokenBucket.Limiter.Allow` | company-beacon-signal/src/handlers.rs:121-133 | One call refills up to the maximum and takes a token if there is one. |
| `TokenBucket.TokensBounded` | company-beacon-signal/src/handlers.rs:111-134 | Tokens stay between 0 and 10. |
| `TokenBucket.IntervalBounded` | company-beacon-signal/src/handlers.rs:111-134 | In any interval of T seconds at most 10 + 10 T calls are allowed. |
| `TokenBucket.PatientCallAllowed` | company-beacon-signal/src/handlers.rs:121-133 | A call a tenth of a second or more after the one before is never refused. |
| `TokenBucket.BurstReachesBound` | company-beacon-signal/src/handlers.rs:111-134 | Ten calls at once are allowed and an eleventh is not. |
| `TokenBucket.EmptyBucketWaits` | company-beacon-signal/src/handlers.rs:121-133 | After ten calls at once the next is allowed exactly from a tenth of a second on. |
| `Beacon.SignalingState.Register` | company-beacon-signal/src/state.rs:36-56 | A peer is admitted unless it is new and the registry is full; it gives up its old hashes and claims those without owner. |
| `Beacon.SignalingState.Remove` | company-beacon-signal/src/state.rs:59-63 | A peer leaves with exactly the hashes it owned. |
| `Beacon.AdmittedIff` | company-beacon-signal/src/state.rs:36-56 | A peer is recorded as it came if it is known or fewer than 10000 are, otherwise nothing changes. |
| `Beacon.FullReached` | company-beacon-signal/src/state.rs:36-56 | Every number of peers up to 10000 is reached by some run. |
| `Beacon.CloseOnce` | company-beacon-signal/src/handlers.rs:265-297 | A closed connection is forgotten, and the others keep their identity. |
| `Beacon.SignalingState.RemoveHashes` | company-beacon-signal/src/state.rs:77-88 | Exactly the hashes owned by the peer leave the index. |
| `Beacon.SignalingState.Resolve` | company-beacon-signal/src/state.rs:66-69 | A hash resolves to its owner, who claims it. |
| `Beacon.EveryRunIndexed` | company-beacon-signal/src/state.rs:36-88 | In every run each index entry points to a registered peer that claims the hash, and there are at most 10000 peers. |
| `Beacon.FreshHashesResolve` | company-beacon-signal/src/state.rs:36-56 | Every hash of a fresh registration resolves, to the peer itself if and only if nobody else owned it. |
| `Beacon.OwnerKept` | company-beacon-signal/src/state.rs:36-88 | As long as a hash's owner neither registers again nor leaves it stays the owner. |
| `Beacon.UnownedUntilClaimed` | company-beacon-signal/src/state.rs:36-88 | A hash without owner stays unresolved exactly until somebody who claims it is admitted. |
| `Beacon.SharedHashIsOrphaned` | company-beacon-signal/src/state.rs:59-63 | So when the owner of a hash leaves, even while another peer that claimed it all along stays registered. |
| `Beacon.CloseForgetsLastIdentity` | company-beacon-signal/src/handlers.rs:265-297 | Of two identities registered over one connection, closing it removes the first only if they are the same. |
| `Sessions.SessionStore.Insert` | company-beacon-signal/src/state.rs:111-125 | Expired tokens go first; the new one is stored if there is room. |
| `Sessions.SessionStore.Consume` | company-beacon-signal/src/state.rs:129-139 | A token is consumed if and only if it is stored, unused and fresh, and is used from then on. |
| `Sessions.SessionStore.EvictExpired` | company-beacon-signal/src/state.rs:142-145 | Exactly the expired tokens are removed. |
| `Sessions.EveryRunSingleUse` | company-beacon-signal/src/state.rs:104-146 | In every run each insertion is consumed at most once, within 60 seconds, for its own peer, and at most 1000 are stored. |
| `Sessions.EvictionSparesConsumable` | company-beacon-signal/src/state.rs:142-145 | Eviction never takes a token that could still be consumed. |
| `Sessions.StoredIsGoodForOneUse` | company-beacon-signal/src/state.rs:111-139 | In every run a stored token is good for one use by its own peer: a consumption succeeds if and only if it comes within 60 seconds, and none succeeds after it. |
| `Sessions.RoomIff` | company-beacon-signal/src/state.rs:111-125 | There is room if and only if fewer than 1000 stored tokens are younger than 60 seconds. |
| `Claims.Database.CreateTokenRecord` | signer/app.py:188-193 | The new token is claimable at exactly the times up to its expiry, whatever became of one of the same name; other tokens and all claims are untouched. |
| `Claims.Database.InsertClaimAndUpdateToken` | signer/app.py:196-218 | The transaction inserts a row, counts it and uses the token up at its maximum, or changes nothing if the key exists. |
| `Claims.EveryRunCountsRows` | signer/app.py:188-218 | In every interleaving a token's claim count is the number of rows it got since it was created last, and it is used up exactly when they reach max(1, maxClaims). |
| `Claims.CountsAllRowsIff` | signer/app.py:188-193 | The count covers all its rows if and only if it had none when it was last created. |
| `Claims.FreshNamesCountAll` | signer/app.py:230-252 | With names drawn fresh it always does. |
| `Claims.ClaimsBounded` | signer/app.py:307-364 | With at most k requests between check and transaction a token gets at most max(1, maxClaims) + k - 1 claims. |
| `Claims.RowsBounded` | signer/app.py:307-364 | In rows: those from before its last creation and that many. |
| `Claims.ClaimsBoundReached` | signer/app.py:307-364 | For every maxClaims and k some run reaches that bound. |
| `Claims.CheckPassesIff` | signer/app.py:308-324 | In every interleaving a check passes if and only if the token has not expired by the terms of its last creation and got fewer rows since than max(1, maxClaims). |
| `Claims.UnknownTokenFails` | signer/app.py:308-316 | Nothing passes under a name that was never created. |
| `Claims.EndedRequestIsGone` | signer/app.py:308-364 | A request that gives up or is carried out is no longer pending, and no other is affected. |
| `MfaCodes.CodeTable.StoreMfaCode` | signer/app.py:484-493 | From then on and for ten minutes it is this code that the user's guesses are compared with; nobody else's changes. |
| `MfaCodes.CodeTable.VerifyMfaCode` | signer/app.py:496-544 | The newest unused code of the user is accepted exactly if it is compared and matches. |
| `MfaCodes.EveryRunLimitsTrials` | signer/app.py:484-544 | In every run each code is compared at most five times, accepted at most once, and never compared after it expired. |
| `MfaCodes.OlderCodeAcceptedIff` | signer/app.py:496-544 | After the newest code was accepted an older one is accepted, at any time, if and only if it is the newest unused one before it, unexpired, tried fewer than five times and matched. |
| `MfaCodes.BothCodesAccepted` | signer/app.py:484-544 | So of two codes sent one after the other the older is still accepted after the newer exactly until it expires. |
| `MfaCodes.GuessRetiresIff` | signer/app.py:496-544 | A guess leaves the newest code in place if and only if it is unexpired, tried fewer than five times and not matched; otherwise the newest before it follows. |
| `MfaCodes.SentCodeIsAccepted` | signer/app.py:484-544 | After any run a code that is sent and then guessed is accepted exactly within ten minutes. |
| `MentionParser.MessageParser.Next` | crates/core/parser/src/lib.rs:41-69 | The buffering iterator yields the specified tokens one at a time, ends exactly when none remain, and buffer plus input strictly shrink. |
| `MentionParser.MessageParser.ScanFor` | crates/core/parser/src/lib.rs:52-64 | The scan stops at the first equal marker and drops what it buffered, or keeps all of it. |
| `MentionParser.ParsedByFirst` | crates/core/parser/src/lib.rs:38-70 | The recursive specification is the first token followed by what the iterator then holds. |
| `MentionParser.ParseMessage` | crates/core/parser/src/lib.rs:79-94 | The mention sets contain exactly what the specification exposes. |
| `MentionParser.ClosedBlockHides` | crates/core/parser/src/lib.rs:51-64 | Nothing inside a closed code block is exposed and what follows is parsed afresh. |
| `MentionParser.OpenBlockExposes` | crates/core/parser/src/lib.rs:51-64 | After a marker that is never closed everything is exposed as it is. |
| `MentionParser.EscapeHidesOne` | crates/core/parser/src/lib.rs:47-50 | An escape hides the next token and only that one. |

## Left out

- Redis, MongoDB, SQLite, RabbitMQ, LiveKit and WebSocket transport: they are maps, sets and sequences here, and their failures are left out except for epoch lookups, channel fetches and rolled-back transactions.
- Pub/sub delivery of relayed messages: the relay counts online sessions and queues for the others.
- Serialisation, envelope parsing and the lexer: messages come with their channel and epoch, text as a token list, guesses without surrounding blanks.
- Cryptography, tokens' signatures and HMAC checks: foreign calls.
- Drains in runs with a ledger are atomic: only `SplitDrainLoses` and its companions split one, around any run of the other steps.
- The sync queue of the broker (`push_sync_envelope`, `drain_sync_envelopes`): the same shape as the offline queue with other constants.
- Names, descriptions, icons and other fields of channels, servers, roles and members that no modelled decision reads.
- The endless listener and worker loops are modelled by all their finite prefixes.
- The order in which a relay's sends and its listing read the clock: one reading serves a whole relay.
- `move_user`, viewer state, call notifications and permission syncing in voice: they use other keys.
- Presence, interactions, configuration, routes, file storage, media and scheduled jobs: they hold no state that the modelled machines read.
- The coalescing service is not modelled.
- The rate limit on requesting MFA codes and the table of users with codes enabled: neither is read when a code is verified.
- BrokerModel.EveryRunIsAccountedFor: a registry that lapses as a whole leaves queues of unregistered devices until they expire, so ownership is stated for users whose registry has not lapsed.
- ChannelTopics.TopicFollowsIff: what the user may see is judged the same way throughout a run, so a timeout that ends or a stored record that changes without an event is not covered.
- ShouldRun: both ages are measured against one clock reading.
