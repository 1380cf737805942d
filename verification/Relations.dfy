/** What a user's list of relations says about another user. */
module Relations {
  import opened Models

  ghost predicate FirstAt(relations: seq<Relation>, id: string, i: nat) {
    i < |relations| && relations[i].id == id && forall j :: 0 <= j < i ==> relations[j].id != id
  }

  /** The first entry about a user tells the relationship; without one there is none. */
  lemma {:induction false} FirstRelationCounts(relations: seq<Relation>, id: string, i: nat)
    ensures FirstAt(relations, id, i) ==> RelationIn(relations, id) == relations[i].status
    ensures (forall j :: 0 <= j < |relations| ==> relations[j].id != id) ==> RelationIn(relations, id) == Unrelated
    decreases |relations|
  {
    if relations != [] && relations[0].id != id {
      FirstRelationCounts(relations[1..], id, if i == 0 then 0 else i - 1);
    }
  }

  lemma {:induction false} SomeFirst(relations: seq<Relation>, id: string) returns (i: nat)
    requires exists j :: 0 <= j < |relations| && relations[j].id == id
    ensures FirstAt(relations, id, i)
    decreases |relations|
  {
    if relations[0].id == id {
      i := 0;
    } else {
      var j :| 0 <= j < |relations| && relations[j].id == id;
      assert relations[1..][j - 1].id == id;
      i := SomeFirst(relations[1..], id);
      i := i + 1;
    }
  }
}
