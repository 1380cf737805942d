/**
 The topics of channels over whole runs of the listener loop: when the pub/sub server delivers a channel to exactly
 those who may see it.
 */
module ChannelTopics {
  import opened Models
  import opened Subscriptions
  import opened Events
  import opened TopicEffects
  import opened Listener

  /** An event of the turn is judged by `view` and names the channel as nothing but a channel. */
  ghost predicate About(turn: Turn, view: Visibility, c: string) {
    turn.input.Delivery? ==> turn.input.view == view && c !in Aside(turn.input.event)
  }

  /** The turn's event is silent about a change of what the user may see. */
  predicate SilentTurn(sys: System, turn: Turn, c: string) {
    turn.input.Delivery? &&
    Silent(sys.cache, turn.input.view, turn.input.db, turn.input.event, TurnStep(sys, turn).cache, c)
  }

  /** After every flush the pub/sub server delivers the channel exactly if the user may see it. */
  ghost predicate FollowsThroughout(sys: System, turns: seq<Turn>, view: Visibility, c: string)
    decreases |turns|
  {
    turns == [] || (
      && (c in FlushStep(sys, turns[0].active).topics <==> Shown(sys.cache, view, c))
      && FollowsThroughout(TurnStep(sys, turns[0]), turns[1..], view, c))
  }

  /** No event is silent, but for the last, which is not flushed any more. */
  predicate NeverSilent(sys: System, turns: seq<Turn>, c: string)
    decreases |turns|
  {
    turns == [] || (
      && (turns[1..] == [] || !SilentTurn(sys, turns[0], c))
      && NeverSilent(TurnStep(sys, turns[0]), turns[1..], c))
  }

  /** A flush passes a channel's topic on as it is. */
  lemma FlushKeepsTopic(sys: System, active: seq<Active>, isServer: string -> bool, c: string)
    requires ProperSystem(sys, isServer) && DistinctServers(active) && Plain(c)
    ensures var f := FlushStep(sys, active);
      && (c in f.topics <==> c in sys.subs.subscribed)
      && (c in f.subs.subscribed <==> c in sys.subs.subscribed)
  {
    ProperFlush(sys, active, isServer);
    forall i | 0 <= i < |active| ensures MemberTopic(active[i].server) != c {
      MemberTopicIsNotPlain(active[i].server);
    }
    ActiveLeavesOtherTopics(sys.subs, active, c);
  }

  lemma TurnInStepIff(sys: System, turn: Turn, view: Visibility, isServer: string -> bool, c: string)
    requires ProperSystem(sys, isServer) && ProperTurn(turn, isServer) && Plain(c)
    requires Local(view) && About(turn, view, c) && InStep(sys.cache, sys.subs, view, c)
    ensures var next := TurnStep(sys, turn);
      InStep(next.cache, next.subs, view, c) <==> !SilentTurn(sys, turn, c)
  {
    FlushKeepsTopic(sys, turn.active, isServer, c);
    var f := FlushStep(sys, turn.active);
    if turn.input.Delivery? {
      InStepKeptIff(f.cache, f.subs, view, turn.input.db, turn.input.event, c);
    }
  }

  /**
   For every run over ids as the service issues them, from a state in step: after every flush the pub/sub server
   delivers the channel exactly if the user may see it, if and only if no event before the last creates a channel
   the user may not see or changes whether the user may see it without deciding about its topic.
   */
  lemma {:induction false} TopicFollowsIff(
    sys: System, turns: seq<Turn>, view: Visibility, isServer: string -> bool, c: string)
    requires ProperSystem(sys, isServer) && Plain(c)
    requires Local(view) && InStep(sys.cache, sys.subs, view, c)
    requires forall i :: 0 <= i < |turns| ==> ProperTurn(turns[i], isServer) && About(turns[i], view, c)
    ensures FollowsThroughout(sys, turns, view, c) <==> NeverSilent(sys, turns, c)
    decreases |turns|
  {
    if turns != [] {
      var next, rest := TurnStep(sys, turns[0]), turns[1..];
      FlushKeepsTopic(sys, turns[0].active, isServer, c);
      ProperTurnStep(sys, turns[0], isServer);
      TurnInStepIff(sys, turns[0], view, isServer, c);
      if !SilentTurn(sys, turns[0], c) {
        TopicFollowsIff(next, rest, view, isServer, c);
      } else if rest != [] {
        FlushKeepsTopic(next, rest[0].active, isServer, c);
      }
    }
  }

  function OwnersView(): Visibility {
    (cache: Cache, channel: Channel) =>
      channel.TextChannel? && channel.server in cache.servers && cache.servers[channel.server].owner == cache.userId
  }

  /** Such an event: a server is handed over to a new owner, and the former one keeps a channel only owners see. */
  lemma HandoverIsSilent(cache: Cache, s: Subs, db: Db, server: Server, c: string)
    requires cache.channels == map[c := TextChannel(c, server.id, None, map[])]
    requires cache.servers == map[server.id := server] && server.owner == cache.userId && c in s.subscribed
    ensures var view := OwnersView();
      var e := ServerUpdate(server.id, ServerPatch(Some("new" + cache.userId), None, None, None));
      var h := Handle(cache, s, view, db, e);
      && Local(view) && InStep(cache, s, view, c) && Silent(cache, view, db, e, h.cache, c)
      && c in h.subs.subscribed && !Shown(h.cache, view, c)
  {
    assert |"new" + cache.userId| != |cache.userId|;
  }
}
