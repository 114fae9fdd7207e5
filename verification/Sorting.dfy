/** The stable sort behind `Array.prototype.sort`, for a comparison that is a total preorder. */
module Sorting {
  ghost predicate TotalPreorder<T(!new)>(leq: (T, T) -> bool)
  {
    && (forall a, b :: leq(a, b) || leq(b, a))
    && (forall a, b, c :: leq(a, b) && leq(b, c) ==> leq(a, c))
  }

  ghost predicate SortedBy<T>(s: seq<T>, leq: (T, T) -> bool)
  {
    forall i, j :: 0 <= i < j < |s| ==> leq(s[i], s[j])
  }

  function Insert<T>(x: T, s: seq<T>, leq: (T, T) -> bool): seq<T>
  {
    if s == [] || leq(x, s[0]) then [x] + s else [s[0]] + Insert(x, s[1..], leq)
  }

  function StableSort<T>(s: seq<T>, leq: (T, T) -> bool): seq<T>
  {
    if s == [] then [] else Insert(s[0], StableSort(s[1..], leq), leq)
  }

  function Filter<T>(s: seq<T>, keep: T -> bool): seq<T>
  {
    if s == [] then [] else (if keep(s[0]) then [s[0]] else []) + Filter(s[1..], keep)
  }

  lemma {:induction false} InsertIsPermutation<T>(x: T, s: seq<T>, leq: (T, T) -> bool)
    ensures multiset(Insert(x, s, leq)) == multiset(s) + multiset{x}
  {
    if s == [] || leq(x, s[0]) {
    } else {
      assert s == [s[0]] + s[1..];
      InsertIsPermutation(x, s[1..], leq);
    }
  }

  lemma {:induction false} SortIsPermutation<T>(s: seq<T>, leq: (T, T) -> bool)
    ensures multiset(StableSort(s, leq)) == multiset(s)
    ensures |StableSort(s, leq)| == |s|
  {
    if s != [] {
      assert s == [s[0]] + s[1..];
      SortIsPermutation(s[1..], leq);
      InsertIsPermutation(s[0], StableSort(s[1..], leq), leq);
    }
    assert |multiset(StableSort(s, leq))| == |StableSort(s, leq)| && |multiset(s)| == |s|;
  }

  lemma {:induction false} InsertKeepsSorted<T(!new)>(x: T, s: seq<T>, leq: (T, T) -> bool)
    requires TotalPreorder(leq) && SortedBy(s, leq)
    ensures SortedBy(Insert(x, s, leq), leq)
  {
    if s == [] || leq(x, s[0]) {
    } else {
      InsertKeepsSorted(x, s[1..], leq);
      InsertIsPermutation(x, s[1..], leq);
      var rest := Insert(x, s[1..], leq);
      forall i | 0 <= i < |rest| ensures leq(s[0], rest[i]) {
        assert rest[i] in multiset(rest);
        assert rest[i] == x || rest[i] in s[1..];
      }
    }
  }

  /** The result is in order. */
  lemma {:induction false} SortSorts<T(!new)>(s: seq<T>, leq: (T, T) -> bool)
    requires TotalPreorder(leq)
    ensures SortedBy(StableSort(s, leq), leq)
  {
    if s != [] {
      SortSorts(s[1..], leq);
      InsertKeepsSorted(s[0], StableSort(s[1..], leq), leq);
    }
  }

  /** Elements that the order does not tell apart. */
  predicate Tied<T>(leq: (T, T) -> bool, a: T, b: T) { leq(a, b) && leq(b, a) }

  lemma {:induction false} InsertIsStable<T(!new)>(x: T, s: seq<T>, leq: (T, T) -> bool, y: T)
    requires TotalPreorder(leq)
    ensures Filter(Insert(x, s, leq), z => Tied(leq, y, z)) == (if Tied(leq, y, x) then [x] else []) + Filter(s, z => Tied(leq, y, z))
  {
    if s == [] || leq(x, s[0]) {
      assert ([x] + s)[1..] == s;
    } else {
      var rest := Insert(x, s[1..], leq);
      assert ([s[0]] + rest)[1..] == rest;
      InsertIsStable(x, s[1..], leq, y);
    }
  }

  /** Elements that tie keep the order they came in. */
  lemma {:induction false} SortIsStable<T(!new)>(s: seq<T>, leq: (T, T) -> bool, y: T)
    requires TotalPreorder(leq)
    ensures Filter(StableSort(s, leq), z => Tied(leq, y, z)) == Filter(s, z => Tied(leq, y, z))
  {
    if s != [] {
      SortIsStable(s[1..], leq, y);
      InsertIsStable(s[0], StableSort(s[1..], leq), leq, y);
    }
  }

  lemma SameElements<T>(s: seq<T>, leq: (T, T) -> bool, x: T)
    ensures x in StableSort(s, leq) <==> x in s
  {
    SortIsPermutation(s, leq);
    assert x in StableSort(s, leq) <==> x in multiset(StableSort(s, leq));
    assert x in s <==> x in multiset(s);
  }

  ghost predicate DistinctBy<T, K>(s: seq<T>, key: T -> K)
  {
    forall i, j :: 0 <= i < j < |s| ==> key(s[i]) != key(s[j])
  }

  lemma OccursOnce<T, K>(s: seq<T>, key: T -> K, p: nat)
    requires DistinctBy(s, key) && p < |s|
    ensures multiset(s)[s[p]] == 1
  {
    assert s == s[..p] + [s[p]] + s[p + 1..];
    assert s[p] !in s[..p] && s[p] !in s[p + 1..];
    assert multiset(s) == multiset(s[..p]) + multiset{s[p]} + multiset(s[p + 1..]);
  }

  lemma OccursTwice<T>(s: seq<T>, i: nat, j: nat)
    requires i < j < |s| && s[i] == s[j]
    ensures multiset(s)[s[i]] >= 2
  {
    assert s == s[..j] + [s[j]] + s[j + 1..];
    assert s[..j][i] == s[i];
    assert multiset(s) == multiset(s[..j]) + multiset{s[j]} + multiset(s[j + 1..]);
  }

  /** Elements that no two of which share a key still do not when sorted. */
  lemma SortKeepsDistinct<T, K>(s: seq<T>, leq: (T, T) -> bool, key: T -> K)
    requires DistinctBy(s, key)
    ensures DistinctBy(StableSort(s, leq), key)
  {
    var t := StableSort(s, leq);
    SortIsPermutation(s, leq);
    forall i, j | 0 <= i < j < |t| ensures key(t[i]) != key(t[j]) {
      SameElements(s, leq, t[i]);
      SameElements(s, leq, t[j]);
      var p :| 0 <= p < |s| && s[p] == t[i];
      var q :| 0 <= q < |s| && s[q] == t[j];
      OccursOnce(s, key, p);
      if t[i] == t[j] { OccursTwice(t, i, j); }
    }
  }
}
