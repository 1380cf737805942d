/** Facts about finite sets and duplicate-free sequences, and a supply of names. */
module Collections {

  /** A name for each number, told apart by length. */
  function Name(i: nat): (name: string)
    ensures |name| == i
  {
    if i == 0 then "" else Name(i - 1) + "a"
  }

  ghost predicate Distinct<T>(s: seq<T>) {
    forall i, j :: 0 <= i < j < |s| ==> s[i] != s[j]
  }

  /** The first `k` elements as a set. */
  ghost function Leading<T>(s: seq<T>, k: nat): set<T>
    requires k <= |s|
  {
    if k == 0 then {} else Leading(s, k - 1) + {s[k - 1]}
  }

  lemma {:induction false} LeadingMembers<T>(s: seq<T>, k: nat, x: T)
    requires k <= |s|
    ensures x in Leading(s, k) <==> exists i :: 0 <= i < k && s[i] == x
    decreases k
  {
    if k > 0 {
      LeadingMembers(s, k - 1, x);
    }
  }

  lemma {:induction false} LeadingSize<T>(s: seq<T>, k: nat)
    requires k <= |s| && Distinct(s)
    ensures |Leading(s, k)| == k
    decreases k
  {
    if k > 0 {
      LeadingSize(s, k - 1);
      LeadingMembers(s, k - 1, s[k - 1]);
    }
  }

  lemma MinusSize<T>(a: set<T>, b: set<T>)
    requires b <= a
    ensures |a - b| == |a| - |b|
  {
    assert a == (a - b) + b;
  }

  lemma {:induction false} SubsetSize<T>(a: set<T>, b: set<T>)
    requires a <= b
    ensures |a| <= |b|
    decreases a
  {
    if a != {} {
      var x :| x in a;
      SubsetSize(a - {x}, b - {x});
    }
  }
}
