/** Counting, and facts about sets and sequences without repetition that several modules need. */
module Collections {

  function One(b: bool): nat {
    if b then 1 else 0
  }

  ghost predicate Distinct<T>(s: seq<T>) {
    forall i, j :: 0 <= i < j < |s| ==> s[i] != s[j]
  }

  ghost function Elements<T>(s: seq<T>): set<T> {
    set i | 0 <= i < |s| :: s[i]
  }

  lemma {:induction false} DistinctSize<T>(s: seq<T>)
    requires Distinct(s)
    ensures |Elements(s)| == |s|
  {
    if s == [] {
      assert Elements(s) == {};
    } else {
      var n := |s| - 1;
      DistinctSize(s[..n]);
      forall x | x in Elements(s)
        ensures x in Elements(s[..n]) + {s[n]}
      {
        var i :| 0 <= i < |s| && s[i] == x;
        assert i < n ==> s[..n][i] == x;
      }
      assert Elements(s) == Elements(s[..n]) + {s[n]};
    }
  }

  /** `order` lists each of `keys` once. */
  ghost predicate Enumerates<T(!new)>(order: seq<T>, keys: set<T>) {
    && Distinct(order)
    && (forall i :: 0 <= i < |order| ==> order[i] in keys)
    && (forall k :: k in keys ==> k in order)
  }

  lemma SubsetSize<T>(a: set<T>, b: set<T>)
    requires a <= b
    ensures |a| <= |b|
  {
    assert b == a + (b - a);
  }

  lemma SmallerSet<T>(a: set<T>, b: set<T>, x: T)
    requires a <= b && x in b && x !in a
    ensures |a| < |b|
  {
    SubsetSize(a + {x}, b);
  }
}
