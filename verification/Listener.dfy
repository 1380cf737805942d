/**
 The listener loop of a connection: flush the pending change to the pub/sub
 server, wait for one input, handle it, repeat.
 */
module Listener {
  import opened Models
  import opened Subscriptions
  import opened Events
  import opened ClientState

  /** What wakes the loop: a poke from the reading side, or an event. */
  datatype Input = Signal | Delivery(event: Event, view: Visibility, db: Db)

  /** One round: the reports about active servers found at the flush, then the input. */
  datatype Turn = Turn(active: seq<Active>, input: Input)

  datatype System = System(cache: Cache, subs: Subs, topics: set<string>)

  /** The pending change as it is at the flush. */
  function AtFlush(sys: System, active: seq<Active>): Subs {
    if sys.cache.isBot then sys.subs else AfterActive(sys.subs, active)
  }

  function FlushStep(sys: System, active: seq<Active>): System {
    var s := AtFlush(sys, active);
    System(sys.cache, Flushed(s), TopicsAfter(sys.topics, s))
  }

  function InputStep(sys: System, input: Input): System {
    match input
    case Signal => sys
    case Delivery(e, view, db) =>
      var h := Handle(sys.cache, sys.subs, view, db, e);
      System(h.cache, h.subs, sys.topics)
  }

  function TurnStep(sys: System, turn: Turn): System {
    InputStep(FlushStep(sys, turn.active), turn.input)
  }

  predicate FlushPanics(sys: System, active: seq<Active>) {
    !sys.cache.isBot && ActivePanics(sys.subs, active)
  }

  predicate Agreed(sys: System) {
    sys.topics == sys.subs.subscribed
  }

  // ----- The loop -----

  /**
   Run the loop over a finite sequence of turns. `agreed` tells whether the two
   sets were equal after every flush.
   */
  method Listen(state: State, turns: seq<Turn>) returns (topics: set<string>, panicked: bool, agreed: bool)
    requires state.userId in state.users
    requires forall i :: 0 <= i < |turns| ==> DistinctServers(turns[i].active)
    modifies state
    ensures panicked <==> Aborts(System(old(state.CacheView()), old(state.SubsView()), {}), turns)
    ensures !panicked ==>
      && System(state.CacheView(), state.SubsView(), topics)
         == Final(System(old(state.CacheView()), old(state.SubsView()), {}), turns)
      && (agreed <==> AgreesThroughout(System(old(state.CacheView()), old(state.SubsView()), {}), turns))
  {
    ghost var sys0 := System(state.CacheView(), state.SubsView(), {});
    topics, panicked, agreed := {}, false, true;
    for i := 0 to |turns|
      invariant state.userId in state.users
      invariant var sys := System(state.CacheView(), state.SubsView(), topics);
        && Final(sys0, turns) == Final(sys, turns[i..])
        && (Aborts(sys0, turns) <==> Aborts(sys, turns[i..]))
        && (!Aborts(sys0, turns) ==>
              (AgreesThroughout(sys0, turns) <==> agreed && AgreesThroughout(sys, turns[i..])))
    {
      ghost var sys := System(state.CacheView(), state.SubsView(), topics);
      assert turns[i..][0] == turns[i] && turns[i..][1..] == turns[i + 1..];
      topics, panicked := Flush(state, turns[i].active, topics);
      if panicked {
        return;
      }
      assert System(state.CacheView(), state.SubsView(), topics) == FlushStep(sys, turns[i].active);
      agreed := agreed && topics == state.subscribed;
      FlushClears(sys, turns[i].active);
      match turns[i].input {
        case Signal =>
        case Delivery(e, view, db) =>
          SelfStaysCached(state.CacheView(), state.SubsView(), view, db, e);
          var out, send := state.HandleIncomingEvent(view, db, e);
      }
      assert System(state.CacheView(), state.SubsView(), topics) == TurnStep(sys, turns[i]);
    }
  }

  /** Pass the pending change on to the pub/sub server: unsubscribe first, then subscribe. */
  method Flush(state: State, active: seq<Active>, topics: set<string>) returns (after: set<string>, panicked: bool)
    modifies state
    ensures panicked <==> FlushPanics(System(old(state.CacheView()), old(state.SubsView()), topics), active)
    ensures !panicked ==>
      System(state.CacheView(), state.SubsView(), after)
      == FlushStep(System(old(state.CacheView()), old(state.SubsView()), topics), active)
  {
    after := topics;
    var change;
    change, panicked := state.ApplyState(active);
    if panicked {
      return;
    }
    match change {
      case NoChange =>
      case Reset =>
        after := SubscribeAll(state.subscribed);
      case Change(add, remove) =>
        after := UnsubscribeEach(topics, remove);
        after := SubscribeEach(after, add);
    }
  }

  method SubscribeAll(ids: set<string>) returns (after: set<string>)
    ensures after == ids
  {
    after := {};
    var rest := ids;
    while rest != {}
      invariant rest <= ids && after == ids - rest
      decreases rest
    {
      var id :| id in rest;
      after, rest := after + {id}, rest - {id};
    }
  }

  method UnsubscribeEach(topics: set<string>, ids: seq<string>) returns (after: set<string>)
    ensures after == topics - Elements(ids)
  {
    after := topics;
    for i := 0 to |ids|
      invariant after == topics - Elements(ids[..i])
    {
      assert Elements(ids[..i + 1]) == Elements(ids[..i]) + {ids[i]};
      after := after - {ids[i]};
    }
    assert ids[..|ids|] == ids;
  }

  method SubscribeEach(topics: set<string>, ids: seq<string>) returns (after: set<string>)
    ensures after == topics + Elements(ids)
  {
    after := topics;
    for i := 0 to |ids|
      invariant after == topics + Elements(ids[..i])
    {
      assert Elements(ids[..i + 1]) == Elements(ids[..i]) + {ids[i]};
      after := after + {ids[i]};
    }
    assert ids[..|ids|] == ids;
  }

  // ----- Whole runs -----

  function Final(sys: System, turns: seq<Turn>): System
    decreases |turns|
  {
    if turns == [] then sys else Final(TurnStep(sys, turns[0]), turns[1..])
  }

  /** Some flush of the run aborts. */
  predicate Aborts(sys: System, turns: seq<Turn>)
    decreases |turns|
  {
    turns != [] && (FlushPanics(sys, turns[0].active) || Aborts(TurnStep(sys, turns[0]), turns[1..]))
  }

  /** The pub/sub topics equal the local set after every flush. */
  predicate AgreesThroughout(sys: System, turns: seq<Turn>)
    decreases |turns|
  {
    turns == [] || (
      && Agreed(FlushStep(sys, turns[0].active))
      && AgreesThroughout(TurnStep(sys, turns[0]), turns[1..]))
  }

  /** Nothing contradictory is pending at this flush. */
  predicate FlushFits(sys: System, active: seq<Active>) {
    sys.subs.reset || (sys.subs.add !! sys.subs.remove && (sys.cache.isBot || AllFit(sys.subs, active)))
  }

  predicate AllFlushesFit(sys: System, turns: seq<Turn>)
    decreases |turns|
  {
    turns == [] || (FlushFits(sys, turns[0].active) && AllFlushesFit(TurnStep(sys, turns[0]), turns[1..]))
  }

  lemma FlushClears(sys: System, active: seq<Active>)
    ensures var f := FlushStep(sys, active).subs; !f.reset && f.add == {} && f.remove == {}
  {
  }

  /** Before a flush: either everything is about to be reset, or the change leads from the topics to the local set. */
  ghost predicate InSync(sys: System) {
    sys.subs.reset || Tracks(sys.topics, sys.subs)
  }

  lemma FlushAgreedIff(sys: System, active: seq<Active>)
    requires InSync(sys) && DistinctServers(active)
    ensures Agreed(FlushStep(sys, active)) <==> FlushFits(sys, active)
  {
    var s := AtFlush(sys, active);
    if sys.subs.reset {
      ActiveKeepsReset(sys.subs, active);
    } else {
      ActiveKeepsTrack(sys.topics, sys.subs, active);
      FlushAgreesIff(sys.topics, s);
      if sys.subs.add !! sys.subs.remove {
        ActiveDisjointIff(sys.topics, sys.subs, active);
      } else {
        OverlapStays(sys.subs, active);
      }
    }
  }

  lemma {:induction false} OverlapStays(s: Subs, active: seq<Active>)
    requires !(s.add !! s.remove) && !s.reset
    ensures !(AfterActive(s, active).add !! AfterActive(s, active).remove)
    decreases |active|
  {
    if active != [] {
      var init := active[..|active| - 1];
      OverlapStays(s, init);
      var t := AfterActive(s, init);
      var id :| id in t.add && id in t.remove;
      assert id in AfterActive(s, active).add && id in AfterActive(s, active).remove;
    }
  }

  lemma TurnStaysInSync(sys: System, turn: Turn)
    requires Agreed(FlushStep(sys, turn.active))
    ensures InSync(TurnStep(sys, turn))
  {
    var f := FlushStep(sys, turn.active);
    assert Tracks(f.topics, f.subs);
    if turn.input.Delivery? {
      HandlingKeepsTrack(f.topics, f.cache, f.subs, turn.input.view, turn.input.db, turn.input.event);
    }
  }

  lemma {:induction false} FlushesFitIff(sys: System, turns: seq<Turn>)
    requires InSync(sys)
    requires forall i :: 0 <= i < |turns| ==> DistinctServers(turns[i].active)
    ensures AgreesThroughout(sys, turns) <==> AllFlushesFit(sys, turns)
    decreases |turns|
  {
    if turns != [] {
      FlushAgreedIff(sys, turns[0].active);
      if Agreed(FlushStep(sys, turns[0].active)) {
        TurnStaysInSync(sys, turns[0]);
        FlushesFitIff(TurnStep(sys, turns[0]), turns[1..]);
      }
    }
  }

  /** The reports found at a flush do not undo what is pending for their topics. */
  predicate ReportsFit(sys: System, active: seq<Active>) {
    sys.subs.reset || sys.cache.isBot || AllFit(sys.subs, active)
  }

  /** The turn's event joins a server whose own topic is the id of one of its invisible channels. */
  predicate Clashes(sys: System, turn: Turn) {
    turn.input.Delivery? &&
    var f := FlushStep(sys, turn.active);
    JoinClash(f.cache, f.subs, turn.input.view, turn.input.event)
  }

  /** Every turn's reports fit and no event clashes, but for the last, which is not flushed any more. */
  predicate Clean(sys: System, turns: seq<Turn>)
    decreases |turns|
  {
    turns == [] || (
      && ReportsFit(sys, turns[0].active)
      && (turns[1..] == [] || !Clashes(sys, turns[0]))
      && Clean(TurnStep(sys, turns[0]), turns[1..]))
  }

  lemma TurnDisjointIff(sys: System, turn: Turn)
    ensures var next := TurnStep(sys, turn).subs;
      !next.reset && (next.add !! next.remove <==> !Clashes(sys, turn))
  {
    FlushClears(sys, turn.active);
    var f := FlushStep(sys, turn.active);
    if turn.input.Delivery? {
      EventDisjointIff(f.cache, f.subs, turn.input.view, turn.input.db, turn.input.event);
      HandlingKeepsTrack(f.subs.subscribed, f.cache, f.subs, turn.input.view, turn.input.db, turn.input.event);
    }
  }

  lemma {:induction false} CleanIff(sys: System, turns: seq<Turn>)
    requires sys.subs.reset || sys.subs.add !! sys.subs.remove
    ensures AllFlushesFit(sys, turns) <==> Clean(sys, turns)
    decreases |turns|
  {
    if turns != [] {
      TurnDisjointIff(sys, turns[0]);
      if turns[1..] == [] || !Clashes(sys, turns[0]) {
        if turns[1..] != [] {
          CleanIff(TurnStep(sys, turns[0]), turns[1..]);
        }
      } else {
        assert !FlushFits(TurnStep(sys, turns[0]), turns[1..][0].active);
      }
    }
  }

  /**
   For every run: the real subscriptions equal the local set after every flush if and only if, turn
   by turn, the reports about active servers fit what is pending and no event joins a server whose
   own topic is the id of one of its invisible channels.
   */
  lemma RunAgreesIff(sys: System, turns: seq<Turn>)
    requires InSync(sys) && (sys.subs.reset || sys.subs.add !! sys.subs.remove)
    requires forall i :: 0 <= i < |turns| ==> DistinctServers(turns[i].active)
    ensures AgreesThroughout(sys, turns) <==> Clean(sys, turns)
  {
    FlushesFitIff(sys, turns);
    CleanIff(sys, turns);
  }

  lemma NoResetNoPanic(sys: System, active: seq<Active>)
    requires !sys.subs.reset
    ensures !FlushPanics(sys, active)
  {
    forall i | 0 <= i < |active|
      ensures !RemovalPanics(AfterActive(sys.subs, active[..i]), MemberTopic(active[i].server))
    {
      ActiveKeepsReset(sys.subs, active[..i]);
    }
  }

  lemma {:induction false} NoResetNoAbort(sys: System, turns: seq<Turn>)
    requires !sys.subs.reset
    ensures !Aborts(sys, turns)
    decreases |turns|
  {
    if turns != [] {
      NoResetNoPanic(sys, turns[0].active);
      TurnDisjointIff(sys, turns[0]);
      NoResetNoAbort(TurnStep(sys, turns[0]), turns[1..]);
    }
  }

  /**
   A run aborts if and only if it starts with a reset pending and the first flush of a user's
   connection finds an expired server whose member topic is subscribed.
   */
  lemma RunAbortsIff(sys: System, turns: seq<Turn>)
    requires forall i :: 0 <= i < |turns| ==> DistinctServers(turns[i].active)
    ensures Aborts(sys, turns) <==>
      && turns != [] && sys.subs.reset && !sys.cache.isBot
      && exists i :: 0 <= i < |turns[0].active| && turns[0].active[i].Expired?
           && RemovalPanics(sys.subs, MemberTopic(turns[0].active[i].server))
  {
    if !sys.subs.reset {
      NoResetNoAbort(sys, turns);
    } else if turns != [] {
      ActivePanicsIff(sys.subs, turns[0].active);
      TurnDisjointIff(sys, turns[0]);
      NoResetNoAbort(TurnStep(sys, turns[0]), turns[1..]);
    }
  }

  // ----- Identifiers as the service issues them -----

  /** No issued id ends in the suffix that marks a member topic. */
  predicate Plain(id: string) {
    id == "" || id[|id| - 1] != 'u'
  }

  lemma MemberTopicIsNotPlain(server: string)
    ensures !Plain(MemberTopic(server))
  {
  }

  /** A channel has a plain id that is not the id of a server. */
  predicate ChannelId(id: string, isServer: string -> bool) {
    Plain(id) && !isServer(id)
  }

  predicate ProperDb(db: Db, isServer: string -> bool) {
    forall c :: c in db.channels ==> ChannelId(c, isServer)
  }

  predicate ProperEvent(e: Event, isServer: string -> bool) {
    match e
    case ChannelCreate(channel) => ChannelId(channel.id, isServer)
    case ChannelUpdate(id, _) => ChannelId(id, isServer)
    case ChannelDelete(id) => ChannelId(id, isServer)
    case ChannelGroupJoin(id, user) => ChannelId(id, isServer) && Plain(user)
    case ChannelGroupLeave(id, user) => ChannelId(id, isServer) && Plain(user)
    case ServerCreate(id, server, channels) =>
      && Plain(id) && isServer(id) && ProperServer(server)
      && forall i :: 0 <= i < |channels| ==> ChannelId(channels[i].id, isServer)
    case ServerUpdate(id, patch) =>
      Plain(id) && (patch.channels.Some? ==>
        forall i :: 0 <= i < |patch.channels.value| ==> Plain(patch.channels.value[i]))
    case ServerMemberLeave(id, _) => Plain(id)
    case ServerDelete(id) => Plain(id)
    case UserRelationship(id, _) => Plain(id)
    case _ => true
  }

  predicate ProperServer(server: Server) {
    forall i :: 0 <= i < |server.channels| ==> Plain(server.channels[i])
  }

  predicate ProperCache(cache: Cache, isServer: string -> bool) {
    && (forall c :: c in cache.channels ==> ChannelId(c, isServer))
    && (forall k :: k in cache.servers ==> ProperServer(cache.servers[k]))
  }

  predicate ProperTurn(turn: Turn, isServer: string -> bool) {
    && DistinctServers(turn.active)
    && (turn.input.Delivery? ==> ProperEvent(turn.input.event, isServer) && ProperDb(turn.input.db, isServer))
  }

  /** Nothing pending carries a member topic. */
  predicate PlainChange(s: Subs) {
    forall id :: id in s.add + s.remove ==> Plain(id)
  }

  /** A recalculation caches proper channels only and touches plain topics only. */
  lemma RecalculationStaysProper(
    cache: Cache, s: Subs, view: Visibility, db: Db, server: string, isServer: string -> bool)
    requires ProperCache(cache, isServer) && ProperDb(db, isServer)
    ensures var h := WithRecalculation(cache, s, view, db, server);
      ProperCache(h.cache, isServer) && (PlainChange(s) ==> PlainChange(h.subs))
  {
    if server in cache.servers {
      var r := Recalculate(cache, view, db, server);
      assert forall c :: c in r.kept + r.dropped ==> c in OwnChannels(cache, server);
      assert forall c :: c in r.fetched ==> ChannelId(c, isServer);
    }
  }

  lemma JoinStaysProper(cache: Cache, e: Event, isServer: string -> bool)
    requires ProperCache(cache, isServer) && ProperEvent(e, isServer) && e.ServerCreate?
    ensures ProperCache(JoinedCache(cache, e.id, e.server, e.channels), isServer)
  {
    var m := ById(e.channels);
    forall c | c in m ensures ChannelId(c, isServer) {
      var i :| 0 <= i < |e.channels| && e.channels[i] == m[c];
    }
  }

  lemma PatchStaysProper(cache: Cache, id: string, patch: ServerPatch, isServer: string -> bool)
    requires ProperCache(cache, isServer) && ProperEvent(ServerUpdate(id, patch), isServer) && id in cache.servers
    ensures ProperCache(cache.(servers := cache.servers[id := PatchedServer(cache.servers[id], patch)]), isServer)
  {
  }

  lemma RolesStayProper(cache: Cache, id: string, role: string, patch: RolePatch, isServer: string -> bool)
    requires ProperCache(cache, isServer)
    ensures ProperCache(RoleUpdatedCache(cache, id, role, patch), isServer)
    ensures ProperCache(RoleDeletedCache(cache, id, role), isServer)
  {
    if id in cache.servers {
      assert ProperServer(cache.servers[id]);
    }
  }

  /** Events that recalculate a server keep the cache proper and, for a user, touch plain topics only. */
  lemma ServerEventStaysProper(cache: Cache, s: Subs, view: Visibility, db: Db, e: Event, isServer: string -> bool)
    requires ProperCache(cache, isServer) && ProperDb(db, isServer) && ProperEvent(e, isServer)
    requires PlainChange(s)
    requires e.ServerUpdate? || e.ServerMemberUpdate? || e.ServerRoleUpdate? || e.ServerRoleDelete?
    ensures var h := Handle(cache, s, view, db, e); ProperCache(h.cache, isServer) && PlainChange(h.subs)
  {
    if e.ServerUpdate? && e.id in cache.servers {
      PatchStaysProper(cache, e.id, e.serverPatch, isServer);
    }
    if e.ServerRoleUpdate? {
      RolesStayProper(cache, e.id, e.role, e.rolePatch, isServer);
    } else if e.ServerRoleDelete? {
      RolesStayProper(cache, e.id, e.role, RolePatch(None, None), isServer);
    }
    forall after: Cache | ProperCache(after, isServer)
      ensures var h := WithRecalculation(after, s, view, db, e.id);
        ProperCache(h.cache, isServer) && PlainChange(h.subs)
    {
      RecalculationStaysProper(after, s, view, db, e.id, isServer);
    }
  }

  lemma JoinEventStaysProper(cache: Cache, s: Subs, view: Visibility, db: Db, e: Event, isServer: string -> bool)
    requires ProperCache(cache, isServer) && ProperDb(db, isServer) && ProperEvent(e, isServer)
    requires PlainChange(s) && e.ServerCreate?
    ensures var h := Handle(cache, s, view, db, e);
      ProperCache(h.cache, isServer) && (!cache.isBot ==> PlainChange(h.subs))
  {
    JoinStaysProper(cache, e, isServer);
    RecalculationStaysProper(JoinedCache(cache, e.id, e.server, e.channels),
                             Inserted(s, OwnTopics(cache, e.id)), view, db, e.id, isServer);
  }

  lemma LeaveStaysProper(cache: Cache, s: Subs, id: string, isServer: string -> bool)
    requires ProperCache(cache, isServer) && Plain(id) && PlainChange(s)
    ensures ProperCache(LeftCache(cache, id), isServer) && PlainChange(Removed(s, ServerTopics(cache, id)))
  {
    if id in cache.servers {
      assert ProperServer(cache.servers[id]);
    }
  }

  /** Events about one channel or user touch one plain topic. */
  lemma TopicEventStaysProper(cache: Cache, s: Subs, view: Visibility, db: Db, e: Event, isServer: string -> bool)
    requires ProperCache(cache, isServer) && ProperDb(db, isServer) && ProperEvent(e, isServer)
    requires PlainChange(s)
    requires e.ChannelCreate? || e.ChannelUpdate? || e.ChannelDelete? || e.ChannelGroupJoin? || e.ChannelGroupLeave?
          || e.UserUpdate? || e.UserRelationship? || e.Message? || e.Bulk? || e.Unhandled?
    ensures var h := Handle(cache, s, view, db, e); ProperCache(h.cache, isServer) && PlainChange(h.subs)
  {
  }

  lemma HandlingStaysProper(cache: Cache, s: Subs, view: Visibility, db: Db, e: Event, isServer: string -> bool)
    requires ProperCache(cache, isServer) && ProperDb(db, isServer) && ProperEvent(e, isServer)
    requires PlainChange(s)
    ensures var h := Handle(cache, s, view, db, e);
      ProperCache(h.cache, isServer) && (!cache.isBot ==> PlainChange(h.subs))
  {
    if e.ServerCreate? {
      JoinEventStaysProper(cache, s, view, db, e, isServer);
    } else if e.ServerUpdate? || e.ServerMemberUpdate? || e.ServerRoleUpdate? || e.ServerRoleDelete? {
      ServerEventStaysProper(cache, s, view, db, e, isServer);
    } else if e.ServerMemberLeave? || e.ServerDelete? {
      LeaveStaysProper(cache, s, e.id, isServer);
    } else {
      TopicEventStaysProper(cache, s, view, db, e, isServer);
    }
  }

  /** With proper ids no event can put an id on both sides. */
  lemma ProperEventsDoNotClash(cache: Cache, s: Subs, view: Visibility, db: Db, e: Event, isServer: string -> bool)
    requires ProperCache(cache, isServer) && ProperEvent(e, isServer)
    requires !s.reset && s.add == {} && s.remove == {}
    ensures var h := Handle(cache, s, view, db, e); h.subs.add !! h.subs.remove
  {
    EventDisjointIff(cache, s, view, db, e);
    if e.ServerCreate? {
      JoinStaysProper(cache, e, isServer);
      MemberTopicIsNotPlain(e.id);
    }
  }

  /** What holds between two turns of a run over proper ids. */
  ghost predicate ProperSystem(sys: System, isServer: string -> bool) {
    && ProperCache(sys.cache, isServer)
    && if sys.subs.reset then !sys.cache.isBot ==> forall id :: id in sys.subs.subscribed ==> Plain(id)
       else Tracks(sys.topics, sys.subs) && sys.subs.add !! sys.subs.remove
            && (!sys.cache.isBot ==> PlainChange(sys.subs))
  }

  /** The state after the first payload is one to start from. */
  lemma ReadyIsProper(
    cache: Cache, privateTopic: string, users: seq<string>, servers: seq<string>, channels: seq<string>,
    isServer: string -> bool)
    requires ProperCache(cache, isServer) && Plain(privateTopic)
    requires forall id :: id in users + servers + channels ==> Plain(id)
    ensures ProperSystem(System(cache, ReadySubs(privateTopic, cache.isBot, users, servers, channels), {}), isServer)
  {
    if !cache.isBot {
      forall id | id in ReadySubs(privateTopic, false, users, servers, channels).subscribed ensures Plain(id) {
        assert id != privateTopic ==> id in users + servers + channels;
      }
    }
  }

  lemma ProperFlush(sys: System, active: seq<Active>, isServer: string -> bool)
    requires ProperSystem(sys, isServer) && DistinctServers(active)
    ensures FlushFits(sys, active) && !FlushPanics(sys, active) && Agreed(FlushStep(sys, active))
  {
    forall i | 0 <= i < |active| ensures !Plain(MemberTopic(active[i].server)) {
      MemberTopicIsNotPlain(active[i].server);
    }
    ActivePanicsIff(sys.subs, active);
    FlushAgreedIff(sys, active);
  }

  lemma ProperTurnStep(sys: System, turn: Turn, isServer: string -> bool)
    requires ProperSystem(sys, isServer) && ProperTurn(turn, isServer)
    ensures ProperSystem(TurnStep(sys, turn), isServer)
  {
    ProperFlush(sys, turn.active, isServer);
    var f := FlushStep(sys, turn.active);
    assert Tracks(f.topics, f.subs);
    if turn.input.Delivery? {
      var view, db, e := turn.input.view, turn.input.db, turn.input.event;
      HandlingKeepsTrack(f.topics, f.cache, f.subs, view, db, e);
      ProperEventsDoNotClash(f.cache, f.subs, view, db, e, isServer);
      HandlingStaysProper(f.cache, f.subs, view, db, e, isServer);
    }
  }

  /**
   For every run over ids as the service issues them, from the first reset on: no
   flush aborts, and after every flush the real subscriptions equal the local set.
   */
  lemma {:induction false} ProperRunsAgree(sys: System, turns: seq<Turn>, isServer: string -> bool)
    requires ProperSystem(sys, isServer)
    requires forall i :: 0 <= i < |turns| ==> ProperTurn(turns[i], isServer)
    ensures AgreesThroughout(sys, turns) && !Aborts(sys, turns)
    decreases |turns|
  {
    if turns != [] {
      ProperFlush(sys, turns[0].active, isServer);
      ProperTurnStep(sys, turns[0], isServer);
      ProperRunsAgree(TurnStep(sys, turns[0]), turns[1..], isServer);
    }
  }

  /** Without that convention the sets can part: a server whose only channel carries the server's own id. */
  lemma SharedIdMakesThemPart(sys: System, view: Visibility, db: Db, server: Server, channel: Channel)
    requires channel == TextChannel(server.id, server.id, None, map[])
    requires !sys.subs.reset && sys.subs.add == {} && sys.subs.remove == {} && Agreed(sys)
    requires server.id !in sys.subs.subscribed
    requires forall c: Cache :: !view(c, channel)
    ensures !Agreed(FlushStep(InputStep(sys, Delivery(ServerCreate(server.id, server, [channel]), view, db)), []))
  {
    var e := ServerCreate(server.id, server, [channel]);
    var joined := JoinedCache(sys.cache, e.id, e.server, e.channels);
    assert ById([channel]) == map[channel.id := channel];
    assert joined.channels[server.id] == channel;
    assert server.id in OwnTopics(sys.cache, e.id) && server.id in OwnChannels(joined, e.id);
    assert JoinClash(sys.cache, sys.subs, view, e);
    EventDisjointIff(sys.cache, sys.subs, view, db, e);
    var next := InputStep(sys, Delivery(e, view, db));
    assert Tracks(sys.topics, sys.subs);
    HandlingKeepsTrack(sys.topics, sys.cache, sys.subs, view, db, e);
    FlushAgreedIff(next, []);
  }

  /** The run goes on from where it stands. */
  lemma {:induction false} OneMoreTurn(sys: System, turns: seq<Turn>, turn: Turn)
    ensures Final(sys, []) == sys
    ensures Final(sys, turns + [turn]) == TurnStep(Final(sys, turns), turn)
    decreases |turns|
  {
    if turns == [] {
      assert turns + [turn] == [turn] && [turn][1..] == [];
    } else {
      OneMoreTurn(TurnStep(sys, turns[0]), turns[1..], turn);
      assert (turns + [turn])[1..] == turns[1..] + [turn];
    }
  }
}
