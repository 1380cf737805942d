/** What the client is told: the topics of the first payload, and the channels it knows after each event sent on. */
module ClientView {
  import opened Models
  import opened Subscriptions
  import opened Events
  import opened ClientState

  /**
   A connection starts with its private topic, the users, servers and channels it is told of, and, for a bot, the
   member topic of each of those servers.
   */
  lemma ReadyTopics(
    privateTopic: string, isBot: bool, users: seq<string>, servers: seq<string>, channels: seq<string>, topic: string)
    ensures topic in ReadySubs(privateTopic, isBot, users, servers, channels).subscribed <==>
      || topic == privateTopic || topic in users || topic in servers || topic in channels
      || (isBot && exists i :: 0 <= i < |servers| && topic == MemberTopic(servers[i]))
  {
    if i :| 0 <= i < |servers| && topic == MemberTopic(servers[i]) {
      assert MemberTopics(servers)[i] == topic;
    }
  }

  /** The channels a client knows after an event about single channels, or a bulk of such events. */
  function Told(known: set<string>, e: Event): set<string>
    decreases e
  {
    match e
    case ChannelCreate(channel) => known + {channel.id}
    case ChannelDelete(id) => known - {id}
    case Bulk(v) => ToldAll(known, v)
    case _ => known
  }

  function ToldAll(known: set<string>, v: seq<Event>): set<string>
    decreases v
  {
    if v == [] then known else Told(ToldAll(known, v[..|v| - 1]), v[|v| - 1])
  }

  lemma {:induction false} ToldConcat(known: set<string>, a: seq<Event>, b: seq<Event>)
    ensures ToldAll(known, a + b) == ToldAll(ToldAll(known, a), b)
    decreases |b|
  {
    if b == [] {
      assert a + b == a;
    } else {
      assert (a + b)[..|a + b| - 1] == a + b[..|b| - 1];
      ToldConcat(known, a, b[..|b| - 1]);
    }
  }

  lemma {:induction false} ToldDeletes(known: set<string>, ids: seq<string>)
    ensures ToldAll(known, DeleteEvents(ids)) == known - Elements(ids)
    decreases |ids|
  {
    if ids != [] {
      var init, last := ids[..|ids| - 1], ids[|ids| - 1];
      ToldDeletes(known, init);
      ToldConcat(known, DeleteEvents(init), [ChannelDelete(last)]);
      assert ToldAll(known - Elements(init), [ChannelDelete(last)]) == known - Elements(init) - {last};
      assert ids == init + [last];
    }
  }

  lemma {:induction false} ToldCreates(known: set<string>, ids: seq<string>, channels: map<string, Channel>)
    requires AllKnown(ids, channels) && forall c :: c in channels ==> channels[c].id == c
    ensures ToldAll(known, CreateEvents(ids, channels)) == known + Elements(ids)
    decreases |ids|
  {
    if ids != [] {
      var init, last := ids[..|ids| - 1], ids[|ids| - 1];
      ToldCreates(known, init, channels);
      ToldConcat(known, CreateEvents(init, channels), [ChannelCreate(channels[last])]);
      assert ToldAll(known + Elements(init), [ChannelCreate(channels[last])]) == known + Elements(init) + {last};
      assert ids == init + [last];
    }
  }

  lemma LastIsQuiet(known: set<string>, event: Event)
    requires MayRecalculate(event)
    ensures ToldAll(known, [event]) == known
  {
    assert [event][..0] == [];
  }

  lemma PartsTell(
    known: set<string>, gone: seq<string>, come: seq<string>, channels: map<string, Channel>, event: Event)
    requires AllKnown(come, channels) && (forall c :: c in channels ==> channels[c].id == c) && MayRecalculate(event)
    ensures ToldAll(known, DeleteEvents(gone) + CreateEvents(come, channels) + [event])
         == known - Elements(gone) + Elements(come)
  {
    var deletes, creates := DeleteEvents(gone), CreateEvents(come, channels);
    ToldConcat(known, deletes + creates, [event]);
    ToldConcat(known, deletes, creates);
    ToldDeletes(known, gone);
    ToldCreates(known - Elements(gone), come, channels);
    LastIsQuiet(known - Elements(gone) + Elements(come), event);
  }

  lemma BulkIsItsParts(known: set<string>, v: seq<Event>)
    ensures Told(known, Bulk(v)) == ToldAll(known, v)
  {
  }

  lemma QuietEvent(known: set<string>, event: Event)
    requires MayRecalculate(event)
    ensures Told(known, event) == known
  {
  }

  lemma PartsOfBulk(out: Event, event: Event, r: Recalculation) returns (gone: seq<string>, come: seq<string>)
    requires BulkFor(out, event, r) && !(r.dropped == {} && r.fetched == map[])
    ensures Elements(gone) == r.dropped && Elements(come) == r.fetched.Keys && AllKnown(come, r.fetched)
    ensures out == Bulk(DeleteEvents(gone) + CreateEvents(come, r.fetched) + [event])
  {
    gone, come :| Lists(gone, r.dropped) && Lists(come, r.fetched.Keys) && AllKnown(come, r.fetched)
      && out == Bulk(DeleteEvents(gone) + CreateEvents(come, r.fetched) + [event]);
  }

  /** The bulk of a recalculation tells the client of every dropped and every fetched channel, and of no other. */
  lemma BulkTells(known: set<string>, out: Event, event: Event, r: Recalculation)
    requires BulkFor(out, event, r) && MayRecalculate(event)
    requires forall c :: c in r.fetched ==> r.fetched[c].id == c
    ensures Told(known, out) == known - r.dropped + r.fetched.Keys
  {
    if r.dropped == {} && r.fetched == map[] {
      QuietEvent(known, event);
    } else {
      var gone, come := PartsOfBulk(out, event, r);
      BulkIsItsParts(known, DeleteEvents(gone) + CreateEvents(come, r.fetched) + [event]);
      PartsTell(known, gone, come, r.fetched, event);
    }
  }

  lemma FetchedAreKeyed(cache: Cache, view: Visibility, db: Db, server: string, c: string)
    requires server in cache.servers && c in Recalculate(cache, view, db, server).fetched
    ensures Recalculate(cache, view, db, server).fetched[c].id == c
  {
  }

  /** A recalculation keeps a client that knows exactly the cached channels in that state. */
  lemma RecalculationTells(cache: Cache, s: Subs, view: Visibility, db: Db, server: string, out: Event, event: Event)
    requires MayRecalculate(event)
    requires ForwardedAs(out, true, event, WithRecalculation(cache, s, view, db, server).forward)
    ensures Told(cache.channels.Keys, out) == WithRecalculation(cache, s, view, db, server).cache.channels.Keys
  {
    if server in cache.servers {
      var r := Recalculate(cache, view, db, server);
      forall c | c in r.fetched ensures r.fetched[c].id == c {
        FetchedAreKeyed(cache, view, db, server, c);
      }
      BulkTells(cache.channels.Keys, out, event, r);
    }
  }

  /** What the handler of such an event starts the recalculation from. */
  lemma PatchKeepsChannels(cache: Cache, s: Subs, view: Visibility, db: Db, e: Event) returns (after: Cache)
    requires MayRecalculate(e) && !e.ServerCreate?
    ensures after.channels == cache.channels
    ensures Handle(cache, s, view, db, e) == WithRecalculation(after, s, view, db, e.id)
         || Handle(cache, s, view, db, e) == Handled(after, s, Same)
  {
    match e {
      case ServerUpdate(id, patch) =>
        after := if id in cache.servers
          then cache.(servers := cache.servers[id := PatchedServer(cache.servers[id], patch)]) else cache;
      case ServerMemberUpdate(id, user, patch) =>
        after := if user == cache.userId && id in cache.members
          then cache.(members := cache.members[id := PatchedMember(cache.members[id], patch)]) else cache;
      case ServerRoleUpdate(id, role, patch) =>
        after := RoleUpdatedCache(cache, id, role, patch);
      case ServerRoleDelete(id, role) =>
        after := RoleDeletedCache(cache, id, role);
    }
  }

  /**
   A client that knows exactly the cached channels knows exactly them again after any change of a server, of one's
   own membership or of a role, whatever the change does to what is visible.
   */
  lemma ClientKeepsUp(cache: Cache, s: Subs, view: Visibility, db: Db, e: Event, out: Event)
    requires MayRecalculate(e) && !e.ServerCreate?
    requires ForwardedAs(out, true, e, Handle(cache, s, view, db, e).forward)
    ensures Told(cache.channels.Keys, out) == Handle(cache, s, view, db, e).cache.channels.Keys
  {
    var after := PatchKeepsChannels(cache, s, view, db, e);
    if Handle(cache, s, view, db, e) == WithRecalculation(after, s, view, db, e.id) {
      RecalculationTells(after, s, view, db, e.id, out, e);
    }
  }

  /** And it learns of a channel that appears, disappears, is created or deleted. */
  lemma ClientLearns(cache: Cache, s: Subs, view: Visibility, db: Db, e: Event, out: Event, known: set<string>)
    requires e.ChannelCreate? || e.ChannelDelete? || e.ChannelUpdate?
    requires ForwardedAs(out, true, e, Handle(cache, s, view, db, e).forward)
    requires forall c :: c in cache.channels ==> cache.channels[c].id == c
    ensures e.ChannelCreate? ==> Told(known, out) == known + {e.channel.id}
    ensures e.ChannelDelete? ==> Told(known, out) == known - {e.id}
    ensures e.ChannelUpdate? ==>
      var h := Handle(cache, s, view, db, e);
      var could := e.id in cache.channels && CanView(view, cache, cache.channels[e.id]);
      var can := e.id in h.cache.channels && CanView(view, h.cache, h.cache.channels[e.id]);
      Told(known, out) == if can == could then known else if can then known + {e.id} else known - {e.id}
  {
  }
}
