/**
 Collecting the role overrides that apply to a member and ordering them by rank.
 The roles come out of a hash map in arbitrary order and are sorted from the
 largest rank number to the smallest, so the smallest rank number speaks last.
 */
module RoleRanking {
  import opened Models
  import opened Permissions

  datatype RankedOverride = RankedOverride(rank: int, o: Override)

  /** The overrides that apply to one member, keyed by role. */
  type Applicable = map<string, RankedOverride>

  function ServerOverrides(server: Server, member: Member): Applicable {
    map id | id in server.roles && id in member.roles ::
      RankedOverride(server.roles[id].rank, server.roles[id].permissions)
  }

  function ChannelOverrides(server: Server, member: Member, roles: map<string, Override>): Applicable {
    map id | id in roles && id in member.roles && id in server.roles ::
      RankedOverride(server.roles[id].rank, roles[id])
  }

  /** `order` lists exactly `keys`, once each, with no rank followed by a larger one. */
  ghost predicate Sorted(order: seq<string>, keys: set<string>, m: Applicable) {
    && (forall id :: id in order <==> id in keys)
    && (forall i, j :: 0 <= i < j < |order| ==> order[i] != order[j])
    && (forall i :: 0 <= i < |order| ==> order[i] in m)
    && (forall i, j :: 0 <= i < j < |order| ==> m[order[i]].rank >= m[order[j]].rank)
  }

  /** Every result the sort may produce, whatever order the map was walked in. */
  ghost predicate Ordering(order: seq<string>, m: Applicable) {
    Sorted(order, m.Keys, m)
  }

  function Stack(order: seq<string>, m: Applicable): (stack: seq<Override>)
    requires forall i :: 0 <= i < |order| ==> order[i] in m
    ensures |stack| == |order|
    ensures forall i :: 0 <= i < |order| ==> stack[i] == m[order[i]].o
  {
    if order == [] then [] else [m[order[0]].o] + Stack(order[1..], m)
  }

  ghost function Outcome(value: Mask, order: seq<string>, m: Applicable): Mask
    requires Ordering(order, m)
  {
    AppliedAll(value, Stack(order, m))
  }

  /** `stack` is a possible result of collecting and sorting. */
  ghost predicate IsStack(stack: seq<Override>, m: Applicable) {
    exists order :: Ordering(order, m) && stack == Stack(order, m)
  }

  /** How many leading roles have rank at least `rank`. */
  function Slot(order: seq<string>, m: Applicable, rank: int): (k: nat)
    requires forall i :: 0 <= i < |order| ==> order[i] in m
    ensures k <= |order|
    ensures forall i :: 0 <= i < k ==> m[order[i]].rank >= rank
    ensures k < |order| ==> m[order[k]].rank < rank
  {
    if order == [] || m[order[0]].rank < rank then 0 else 1 + Slot(order[1..], m, rank)
  }

  function Placed(order: seq<string>, m: Applicable, id: string): (placed: seq<string>)
    requires id in m && forall i :: 0 <= i < |order| ==> order[i] in m
    ensures var k := Slot(order, m, m[id].rank);
      && |placed| == |order| + 1 && placed[k] == id
      && (forall i :: 0 <= i < k ==> placed[i] == order[i])
      && (forall i :: k < i < |placed| ==> placed[i] == order[i - 1])
  {
    var k := Slot(order, m, m[id].rank);
    order[..k] + [id] + order[k..]
  }

  lemma PlacedHasSameKeys(order: seq<string>, m: Applicable, id: string, x: string)
    requires id in m && forall i :: 0 <= i < |order| ==> order[i] in m
    ensures x in Placed(order, m, id) <==> x in order || x == id
  {
    var k, placed := Slot(order, m, m[id].rank), Placed(order, m, id);
    if x in order {
      var n :| 0 <= n < |order| && order[n] == x;
      assert placed[if n < k then n else n + 1] == x;
    }
  }

  lemma PlacedPair(order: seq<string>, keys: set<string>, m: Applicable, id: string, i: nat, j: nat)
    requires Sorted(order, keys, m) && id in m && id !in keys
    requires i < j <= |order|
    ensures var placed := Placed(order, m, id);
      && placed[i] in m && placed[j] in m
      && placed[i] != placed[j] && m[placed[i]].rank >= m[placed[j]].rank
  {
    var k := Slot(order, m, m[id].rank);
    if i == k {
      assert order[j - 1] in order;
      assert k < j - 1 ==> m[order[k]].rank >= m[order[j - 1]].rank;
    } else if j == k {
      assert order[i] in order;
    }
  }

  lemma PlacedStaysSorted(order: seq<string>, keys: set<string>, m: Applicable, id: string)
    requires Sorted(order, keys, m) && id in m && id !in keys
    ensures Sorted(Placed(order, m, id), keys + {id}, m)
  {
    var placed := Placed(order, m, id);
    forall x ensures x in placed <==> x in keys + {id} {
      PlacedHasSameKeys(order, m, id, x);
    }
    forall i, j | 0 <= i < j < |placed|
      ensures placed[i] in m && placed[j] in m
      ensures placed[i] != placed[j] && m[placed[i]].rank >= m[placed[j]].rank
    {
      PlacedPair(order, keys, m, id, i, j);
    }
    forall i | 0 <= i < |placed| ensures placed[i] in m {
      if i < |order| { PlacedPair(order, keys, m, id, i, |order|); }
      else if 0 < i { PlacedPair(order, keys, m, id, 0, i); }
    }
  }

  /** Walk the map in any order and insert each role behind those of no smaller rank. */
  method OrderByRank(m: Applicable) returns (order: seq<string>)
    ensures Ordering(order, m)
  {
    order := [];
    var rest := m.Keys;
    while rest != {}
      invariant rest <= m.Keys
      invariant Sorted(order, m.Keys - rest, m)
      decreases rest
    {
      var id :| id in rest;
      PlacedStaysSorted(order, m.Keys - rest, m, id);
      order := Placed(order, m, id);
      rest := rest - {id};
      assert m.Keys - rest == (m.Keys - (rest + {id})) + {id};
    }
    assert m.Keys - rest == m.Keys;
  }

  method CollectStack(m: Applicable) returns (stack: seq<Override>)
    ensures IsStack(stack, m)
  {
    var order := OrderByRank(m);
    stack := Stack(order, m);
  }

  // ----- What the order decides -----

  /** `id` mentions the flag and no role of smaller rank number does. */
  ghost predicate IsTop(m: Applicable, id: string, flag: Flag) {
    && id in m && Mentions(m[id].o, flag)
    && forall x :: x in m && Mentions(m[x].o, flag) ==> m[id].rank <= m[x].rank
  }

  ghost predicate TopRolesAgree(m: Applicable, flag: Flag) {
    forall a, b :: IsTop(m, a, flag) && IsTop(m, b, flag) ==>
      (flag in m[a].o.deny <==> flag in m[b].o.deny)
  }

  /** `order[k]` is the last role that mentions the flag. */
  ghost predicate SpeaksLast(order: seq<string>, k: nat, m: Applicable, flag: Flag)
    requires forall i :: 0 <= i < |order| ==> order[i] in m
  {
    && k < |order| && Mentions(m[order[k]].o, flag)
    && forall i :: k < i < |order| ==> !Mentions(m[order[i]].o, flag)
  }

  lemma LastSpeakerDecides(value: Mask, order: seq<string>, m: Applicable, k: nat, flag: Flag)
    requires Ordering(order, m) && SpeaksLast(order, k, m, flag)
    ensures flag in Outcome(value, order, m) <==> flag !in m[order[k]].o.deny
  {
    var stack := Stack(order, m);
    LastMentionDecides(value, stack, k, flag);
  }

  lemma {:induction false} LastMentioner(order: seq<string>, m: Applicable, flag: Flag) returns (k: nat)
    requires forall i :: 0 <= i < |order| ==> order[i] in m
    requires exists i :: 0 <= i < |order| && Mentions(m[order[i]].o, flag)
    ensures SpeaksLast(order, k, m, flag)
    decreases |order|
  {
    k := |order| - 1;
    if !Mentions(m[order[k]].o, flag) {
      k := LastMentioner(order[..|order| - 1], m, flag);
    }
  }

  /** In any ordering the flag is decided by one of the roles of smallest rank that mention it. */
  lemma TopRoleDecides(value: Mask, order: seq<string>, m: Applicable, flag: Flag)
    returns (top: string)
    requires Ordering(order, m)
    requires exists id :: id in m && Mentions(m[id].o, flag)
    ensures IsTop(m, top, flag)
    ensures flag in Outcome(value, order, m) <==> flag !in m[top].o.deny
  {
    var id :| id in m && Mentions(m[id].o, flag);
    assert id in order;
    var k := LastMentioner(order, m, flag);
    top := order[k];
    LastSpeakerDecides(value, order, m, k, flag);
    LastSpeakerIsTop(order, m, k, flag);
  }

  lemma LastSpeakerIsTop(order: seq<string>, m: Applicable, k: nat, flag: Flag)
    requires Ordering(order, m) && SpeaksLast(order, k, m, flag)
    ensures IsTop(m, order[k], flag)
  {
    forall x | x in m && Mentions(m[x].o, flag) ensures m[order[k]].rank <= m[x].rank {
      assert x in order;
      var i :| 0 <= i < |order| && order[i] == x;
    }
  }

  lemma {:induction false} SomeSorted(keys: set<string>, m: Applicable) returns (order: seq<string>)
    requires keys <= m.Keys
    ensures Sorted(order, keys, m)
    decreases keys
  {
    if keys == {} {
      order := [];
    } else {
      var id :| id in keys;
      var rest := SomeSorted(keys - {id}, m);
      PlacedStaysSorted(rest, keys - {id}, m, id);
      order := Placed(rest, m, id);
      assert keys - {id} + {id} == keys;
    }
  }

  /** Behind the slot of a top role nobody mentions the flag. */
  lemma TailIsSilent(rest: seq<string>, keys: set<string>, m: Applicable, top: string, flag: Flag, i: nat)
    requires Sorted(rest, keys, m) && IsTop(m, top, flag)
    requires Slot(rest, m, m[top].rank) <= i < |rest|
    ensures !Mentions(m[rest[i]].o, flag)
  {
    var k := Slot(rest, m, m[top].rank);
    assert k < i ==> m[rest[k]].rank >= m[rest[i]].rank;
  }

  /** A top role can be made to speak last, and then its verdict stands. */
  lemma TopRoleCanSpeakLast(value: Mask, m: Applicable, top: string, flag: Flag) returns (order: seq<string>)
    requires IsTop(m, top, flag)
    ensures Ordering(order, m)
    ensures flag in Outcome(value, order, m) <==> flag !in m[top].o.deny
  {
    var keys := m.Keys - {top};
    var rest := SomeSorted(keys, m);
    PlacedStaysSorted(rest, keys, m, top);
    order := Placed(rest, m, top);
    assert keys + {top} == m.Keys;
    var k := Slot(rest, m, m[top].rank);
    assert order[k] == top;
    forall i | k < i < |order| ensures !Mentions(m[order[i]].o, flag) {
      TailIsSilent(rest, keys, m, top, flag, i - 1);
    }
    LastSpeakerDecides(value, order, m, k, flag);
  }

  ghost predicate OrderMatters(m: Applicable, flag: Flag) {
    exists value, o1, o2 :: Ordering(o1, m) && Ordering(o2, m)
      && flag in Outcome(value, o1, m) && flag !in Outcome(value, o2, m)
  }

  lemma DisagreementMakesOrderMatter(m: Applicable, flag: Flag, a: string, b: string)
    requires IsTop(m, a, flag) && IsTop(m, b, flag) && flag !in m[a].o.deny && flag in m[b].o.deny
    ensures OrderMatters(m, flag)
  {
    var o1 := TopRoleCanSpeakLast({}, m, a, flag);
    var o2 := TopRoleCanSpeakLast({}, m, b, flag);
  }

  lemma AgreementFixesFlag(value: Mask, o1: seq<string>, o2: seq<string>, m: Applicable, flag: Flag)
    requires TopRolesAgree(m, flag) && Ordering(o1, m) && Ordering(o2, m)
    ensures flag in Outcome(value, o1, m) <==> flag in Outcome(value, o2, m)
  {
    if exists id :: id in m && Mentions(m[id].o, flag) {
      var t1 := TopRoleDecides(value, o1, m, flag);
      var t2 := TopRoleDecides(value, o2, m, flag);
    } else {
      SilentStackKeepsFlag(value, Stack(o1, m), flag);
      SilentStackKeepsFlag(value, Stack(o2, m), flag);
    }
  }

  /** The sort decides a flag, independently of map iteration, exactly when the top roles agree on it. */
  lemma OrderMattersIff(m: Applicable, flag: Flag)
    ensures OrderMatters(m, flag) <==> !TopRolesAgree(m, flag)
  {
    if !TopRolesAgree(m, flag) {
      var a, b :| IsTop(m, a, flag) && IsTop(m, b, flag) && flag !in m[a].o.deny && flag in m[b].o.deny;
      DisagreementMakesOrderMatter(m, flag, a, b);
    } else if OrderMatters(m, flag) {
      var value, o1, o2 :| Ordering(o1, m) && Ordering(o2, m)
        && flag in Outcome(value, o1, m) && flag !in Outcome(value, o2, m);
      AgreementFixesFlag(value, o1, o2, m, flag);
    }
  }

  ghost predicate DistinctRanks(m: Applicable) {
    forall a, b :: a in m && b in m && m[a].rank == m[b].rank ==> a == b
  }

  lemma OrderingsAgree(value: Mask, o1: seq<string>, o2: seq<string>, m: Applicable)
    requires DistinctRanks(m) && Ordering(o1, m) && Ordering(o2, m)
    ensures Outcome(value, o1, m) == Outcome(value, o2, m)
  {
    var p1, p2 := Outcome(value, o1, m), Outcome(value, o2, m);
    forall flag: Flag ensures flag in p1 <==> flag in p2 {
      AgreementFixesFlag(value, o1, o2, m, flag);
    }
  }

  /** With distinct ranks every collected stack gives the same value. */
  lemma DistinctRanksFixOutcome(value: Mask, s1: seq<Override>, s2: seq<Override>, m: Applicable)
    requires DistinctRanks(m) && IsStack(s1, m) && IsStack(s2, m)
    ensures AppliedAll(value, s1) == AppliedAll(value, s2)
  {
    var o1 :| Ordering(o1, m) && s1 == Stack(o1, m);
    var o2 :| Ordering(o2, m) && s2 == Stack(o2, m);
    OrderingsAgree(value, o1, o2, m);
  }

  /** And then the mentioning role of smallest rank number wins. */
  lemma SmallestRankWins(value: Mask, order: seq<string>, m: Applicable, id: string, flag: Flag)
    requires DistinctRanks(m) && Ordering(order, m) && IsTop(m, id, flag)
    ensures flag in Outcome(value, order, m) <==> flag !in m[id].o.deny
  {
    var top := TopRoleDecides(value, order, m, flag);
  }
}
