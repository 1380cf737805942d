/** The beacon's peer registry: peers claim file hashes, and the first to claim one owns it. */
module Beacon {
  import opened Models
  import opened Collections

  const MAX_PEERS := 10000

  datatype Peer = Peer(id: string, hashes: seq<string>, address: Option<string>)

  datatype Signaling = Signaling(peers: map<string, Peer>, index: map<string, string>)

  const NOBODY := Signaling(map[], map[])

  /** The index without the hashes a peer owns. */
  function Disowned(index: map<string, string>, id: string): map<string, string> {
    map h | h in index && index[h] != id :: index[h]
  }

  /** Claim each hash that has no owner. */
  function Claimed(index: map<string, string>, id: string, hashes: seq<string>): map<string, string>
    decreases |hashes|
  {
    if hashes == [] then index
    else
      var claimed, last := Claimed(index, id, hashes[..|hashes| - 1]), hashes[|hashes| - 1];
      if last in claimed then claimed else claimed[last := id]
  }

  predicate Admits(s: Signaling, id: string) {
    id in s.peers || |s.peers| < MAX_PEERS
  }

  function Registered(s: Signaling, peer: Peer): Signaling {
    if !Admits(s, peer.id) then s
    else
      var index := if peer.id in s.peers then Disowned(s.index, peer.id) else s.index;
      Signaling(s.peers[peer.id := peer], Claimed(index, peer.id, peer.hashes))
  }

  function Removed(s: Signaling, id: string): Signaling {
    Signaling(s.peers - {id}, Disowned(s.index, id))
  }

  class SignalingState {
    var peers: map<string, Peer>
    var index: map<string, string>

    constructor ()
      ensures S() == NOBODY
    {
      peers, index := map[], map[];
    }

    function S(): Signaling
      reads this
    {
      Signaling(peers, index)
    }

    method Register(peer: Peer) returns (ok: bool)
      modifies this
      ensures ok <==> Admits(old(S()), peer.id)
      ensures S() == Registered(old(S()), peer)
    {
      var existing := peer.id in peers;
      if !existing && |peers| >= MAX_PEERS {
        return false;
      }
      if existing {
        var _ := RemoveHashes(peer.id);
      }
      ghost var before := index;
      for i := 0 to |peer.hashes|
        invariant index == Claimed(before, peer.id, peer.hashes[..i])
        invariant peers == old(peers)
      {
        assert peer.hashes[..i + 1][..i] == peer.hashes[..i];
        if peer.hashes[i] !in index {
          index := index[peer.hashes[i] := peer.id];
        }
      }
      assert peer.hashes[..|peer.hashes|] == peer.hashes;
      peers := peers[peer.id := peer];
      ok := true;
    }

    method Remove(id: string) returns (removed: set<string>)
      modifies this
      ensures S() == Removed(old(S()), id)
      ensures removed == set h | h in old(index) && old(index)[h] == id
    {
      removed := RemoveHashes(id);
      peers := peers - {id};
    }

    method RemoveHashes(id: string) returns (removed: set<string>)
      modifies this`index
      ensures index == Disowned(old(index), id)
      ensures removed == set h | h in old(index) && old(index)[h] == id
    {
      removed := {};
      ghost var before := index;
      var rest := index.Keys;
      while rest != {}
        invariant rest <= before.Keys
        invariant removed == set h | h in before && h !in rest && before[h] == id
        invariant index == before - removed
        decreases rest
      {
        var h :| h in rest;
        rest := rest - {h};
        if index[h] == id {
          removed := removed + {h};
          index := index - {h};
        }
      }
    }

    method Resolve(hash: string) returns (peer: Option<Peer>)
      ensures peer.Some? <==> hash in index && index[hash] in peers
      ensures peer.Some? ==> peers[index[hash]] == peer.value
      ensures IndexOk(S()) ==> (peer.Some? <==> hash in index) && (peer.Some? ==> hash in peer.value.hashes)
    {
      if hash in index && index[hash] in peers {
        return Some(peers[index[hash]]);
      }
      return None;
    }
  }

  // ----- Every run -----

  datatype Step = Enter(peer: Peer) | Leave(id: string)

  function Next(s: Signaling, step: Step): Signaling {
    match step
    case Enter(peer) => Registered(s, peer)
    case Leave(id) => Removed(s, id)
  }

  function Run(s: Signaling, steps: seq<Step>): Signaling
    decreases |steps|
  {
    if steps == [] then s else Next(Run(s, steps[..|steps| - 1]), steps[|steps| - 1])
  }

  /** An index entry points to a registered peer that claims the hash. */
  ghost predicate IndexOk(s: Signaling) {
    forall h :: h in s.index ==> Owned(s, h)
  }

  ghost predicate Owned(s: Signaling, h: string) {
    && h in s.index && s.index[h] in s.peers
    && s.peers[s.index[h]].id == s.index[h] && h in s.peers[s.index[h]].hashes
  }

  lemma {:induction false} ClaimedEffect(index: map<string, string>, id: string, hashes: seq<string>, h: string)
    ensures var claimed := Claimed(index, id, hashes);
      && (h in claimed <==> h in index || h in hashes)
      && (h in index ==> claimed[h] == index[h])
      && (h !in index && h in hashes ==> claimed[h] == id)
    decreases |hashes|
  {
    if hashes != [] {
      assert hashes == hashes[..|hashes| - 1] + [hashes[|hashes| - 1]];
      ClaimedEffect(index, id, hashes[..|hashes| - 1], h);
      ClaimedEffect(index, id, hashes[..|hashes| - 1], hashes[|hashes| - 1]);
    }
  }

  lemma RegisterKeeps(s: Signaling, peer: Peer)
    requires IndexOk(s) && |s.peers| <= MAX_PEERS
    ensures IndexOk(Registered(s, peer)) && |Registered(s, peer).peers| <= MAX_PEERS
  {
    var t := Registered(s, peer);
    if Admits(s, peer.id) {
      assert t.peers.Keys == s.peers.Keys + {peer.id};
      var index := if peer.id in s.peers then Disowned(s.index, peer.id) else s.index;
      forall h | h in t.index ensures Owned(t, h) {
        ClaimedEffect(index, peer.id, peer.hashes, h);
        if h in index {
          assert Owned(s, h);
        }
      }
    }
  }

  lemma RemoveKeeps(s: Signaling, id: string)
    requires IndexOk(s) && |s.peers| <= MAX_PEERS
    ensures IndexOk(Removed(s, id)) && |Removed(s, id).peers| <= MAX_PEERS
  {
    var t := Removed(s, id);
    assert t.peers.Keys == s.peers.Keys - {id};
    forall h | h in t.index ensures Owned(t, h) {
      assert Owned(s, h);
    }
  }

  /**
   In every run each index entry points to a registered peer that claims the hash, and there are at most
   10000 peers.
   */
  lemma {:induction false} EveryRunIndexed(steps: seq<Step>)
    ensures IndexOk(Run(NOBODY, steps)) && |Run(NOBODY, steps).peers| <= MAX_PEERS
    decreases |steps|
  {
    if steps != [] {
      EveryRunIndexed(steps[..|steps| - 1]);
      match steps[|steps| - 1] {
        case Enter(peer) => RegisterKeeps(Run(NOBODY, steps[..|steps| - 1]), peer);
        case Leave(id) => RemoveKeeps(Run(NOBODY, steps[..|steps| - 1]), id);
      }
    }
  }

  /** Right after it is admitted, every hash a peer claims resolves, to it or to whoever claimed it before. */
  lemma FreshHashesResolve(steps: seq<Step>, peer: Peer, h: string)
    requires Admits(Run(NOBODY, steps), peer.id) && h in peer.hashes
    ensures var s, t := Run(NOBODY, steps), Registered(Run(NOBODY, steps), peer);
      && Owned(t, h)
      && (t.index[h] == peer.id <==> h !in s.index || s.index[h] == peer.id)
      && (t.index[h] != peer.id ==> h in s.index && t.index[h] == s.index[h])
  {
    var s, t := Run(NOBODY, steps), Registered(Run(NOBODY, steps), peer);
    EveryRunIndexed(steps);
    RegisterKeeps(s, peer);
    var index := if peer.id in s.peers then Disowned(s.index, peer.id) else s.index;
    ClaimedEffect(index, peer.id, peer.hashes, h);
    if h in s.index {
      assert Owned(s, h);
    }
  }

  predicate Acts(step: Step, id: string) {
    match step
    case Enter(peer) => peer.id == id
    case Leave(other) => other == id
  }

  lemma OwnerKeptByOthers(s: Signaling, step: Step, h: string)
    requires h in s.index && !Acts(step, s.index[h])
    ensures h in Next(s, step).index && Next(s, step).index[h] == s.index[h]
  {
    if step.Enter? {
      var peer := step.peer;
      var index := if peer.id in s.peers then Disowned(s.index, peer.id) else s.index;
      ClaimedEffect(index, peer.id, peer.hashes, h);
    }
  }

  /** As long as a hash's owner neither registers again nor leaves, it stays the owner. */
  lemma {:induction false} OwnerKept(s: Signaling, steps: seq<Step>, h: string)
    requires h in s.index
    requires forall i :: 0 <= i < |steps| ==> !Acts(steps[i], s.index[h])
    ensures h in Run(s, steps).index && Run(s, steps).index[h] == s.index[h]
    decreases |steps|
  {
    if steps != [] {
      OwnerKept(s, steps[..|steps| - 1], h);
      OwnerKeptByOthers(Run(s, steps[..|steps| - 1]), steps[|steps| - 1], h);
    }
  }

  /** A peer that is admitted and claims the hash. */
  predicate Claims(s: Signaling, step: Step, h: string) {
    step.Enter? && h in step.peer.hashes && Admits(s, step.peer.id)
  }

  lemma UnownedStep(s: Signaling, step: Step, h: string)
    requires h !in s.index
    ensures h in Next(s, step).index <==> Claims(s, step, h)
  {
    if step.Enter? {
      var peer := step.peer;
      var index := if peer.id in s.peers then Disowned(s.index, peer.id) else s.index;
      ClaimedEffect(index, peer.id, peer.hashes, h);
    }
  }

  ghost predicate NobodyClaims(s: Signaling, steps: seq<Step>, h: string)
    decreases |steps|
  {
    steps == [] ||
    (NobodyClaims(s, steps[..|steps| - 1], h) && !Claims(Run(s, steps[..|steps| - 1]), steps[|steps| - 1], h))
  }

  ghost predicate UnownedThroughout(s: Signaling, steps: seq<Step>, h: string)
    decreases |steps|
  {
    h !in Run(s, steps).index && (steps != [] ==> UnownedThroughout(s, steps[..|steps| - 1], h))
  }

  /** A hash without owner stays unresolved exactly until somebody who claims it is admitted. */
  lemma {:induction false} UnownedUntilClaimed(s: Signaling, steps: seq<Step>, h: string)
    requires h !in s.index
    ensures UnownedThroughout(s, steps, h) <==> NobodyClaims(s, steps, h)
    decreases |steps|
  {
    if steps != [] {
      var init := steps[..|steps| - 1];
      UnownedUntilClaimed(s, init, h);
      if UnownedThroughout(s, init, h) {
        UnownedStep(Run(s, init), steps[|steps| - 1], h);
      }
    }
  }

  /**
   When the owner of a hash leaves, the hash stays unresolved until somebody registers it again,
   even while another peer that claimed it all along stays registered.
   */
  lemma SharedHashIsOrphaned(s: Signaling, owner: string, other: string, h: string, steps: seq<Step>)
    requires h in s.index && s.index[h] == owner
    requires other in s.peers && other != owner && h in s.peers[other].hashes
    requires forall i :: 0 <= i < |steps| ==> !Acts(steps[i], other)
    ensures var left := Removed(s, owner);
      && other in Run(left, steps).peers && h in Run(left, steps).peers[other].hashes
      && (UnownedThroughout(left, steps, h) <==> NobodyClaims(left, steps, h))
  {
    UnownedUntilClaimed(Removed(s, owner), steps, h);
    PeerKept(Removed(s, owner), steps, other);
  }

  lemma {:induction false} PeerKept(s: Signaling, steps: seq<Step>, id: string)
    requires id in s.peers
    requires forall i :: 0 <= i < |steps| ==> !Acts(steps[i], id)
    ensures id in Run(s, steps).peers && Run(s, steps).peers[id] == s.peers[id]
    decreases |steps|
  {
    if steps != [] {
      PeerKept(s, steps[..|steps| - 1], id);
    }
  }

  // ----- Connections -----

  /** A connection remembers the identity it registered last, and removes that one when it closes. */
  datatype Hub = Hub(state: Signaling, connections: map<nat, string>)

  function Connected(hub: Hub, connection: nat, peer: Peer): Hub {
    if Admits(hub.state, peer.id) then
      Hub(Registered(hub.state, peer), hub.connections[connection := peer.id])
    else hub
  }

  function Closed(hub: Hub, connection: nat): Hub {
    if connection in hub.connections then
      Hub(Removed(hub.state, hub.connections[connection]), hub.connections - {connection})
    else hub
  }

  /** Of two identities registered over one connection, closing it removes the first only if they are the same. */
  lemma CloseForgetsLastIdentity(hub: Hub, connection: nat, first: Peer, second: Peer)
    requires Admits(hub.state, first.id) && Admits(Registered(hub.state, first), second.id)
    ensures var closed := Closed(Connected(Connected(hub, connection, first), connection, second), connection);
      second.id !in closed.state.peers && (first.id in closed.state.peers <==> first.id != second.id)
  {
  }

  /** A closed connection is forgotten, so closing it again changes nothing; other connections keep their identity. */
  lemma CloseOnce(hub: Hub, connection: nat, other: nat)
    ensures var closed := Closed(hub, connection);
      && connection !in closed.connections && Closed(closed, connection) == closed
      && (other != connection ==> (other in closed.connections <==> other in hub.connections))
      && (other != connection && other in hub.connections ==> closed.connections[other] == hub.connections[other])
  {
  }

  // ----- Who is admitted -----

  /** A peer is recorded as it came if it is known or fewer than 10000 are; otherwise nothing changes. */
  lemma AdmittedIff(s: Signaling, peer: Peer)
    ensures Registered(s, peer).peers ==
      if peer.id in s.peers || |s.peers| < 10000 then s.peers[peer.id := peer] else s.peers
    ensures peer.id !in s.peers && |s.peers| >= 10000 ==> Registered(s, peer) == s
  {
  }

  ghost predicate Numbered(s: Signaling, n: nat) {
    |s.peers| == n && forall id :: id in s.peers ==> |id| < n
  }

  /** Any number up to 10000 can be registered, and then a newcomer is turned away until somebody leaves. */
  lemma {:induction false} FullReached(n: nat) returns (steps: seq<Step>)
    requires n <= 10000
    ensures Numbered(Run(NOBODY, steps), n)
    decreases n
  {
    steps := [];
    if n > 0 {
      var before := FullReached(n - 1);
      var s, peer := Run(NOBODY, before), Peer(Name(n - 1), [], None);
      steps := before + [Enter(peer)];
      assert steps[..|before|] == before;
      assert Registered(s, peer).peers.Keys == s.peers.Keys + {peer.id};
    }
  }

  lemma NewcomerTurnedAway(s: Signaling, peer: Peer, id: string)
    requires |s.peers| == 10000 && peer.id !in s.peers && id in s.peers
    ensures Registered(s, peer) == s
    ensures peer.id in Registered(Removed(s, id), peer).peers
  {
    assert s.peers.Keys == (s.peers - {id}).Keys + {id};
  }
}
