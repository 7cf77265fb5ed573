// Python's `list.sort` / `sorted` as the scanners and runners use it: a
// stable sort by a key.  Every call site in the source sorts either by score
// descending (`key=score, reverse=True`) or by `(tier, -score)`; both are the
// ascending order on Rank(tier, score) below.
module Sorting {

  /** A sort key: lower tier first, and within a tier a higher score first. */
  datatype Rank = Rank(tier: int, score: real)

  /** `a` sorts strictly before `b`. */
  predicate Before(a: Rank, b: Rank)
  {
    a.tier < b.tier || (a.tier == b.tier && a.score > b.score)
  }

  /** No later element sorts strictly before an earlier one. */
  predicate SortedBy<T>(s: seq<T>, key: T -> Rank)
  {
    forall i, j :: 0 <= i < j < |s| ==> !Before(key(s[j]), key(s[i]))
  }

  /** The elements of `s` whose key is exactly `k`, in their order in `s`. */
  function WithKey<T>(s: seq<T>, key: T -> Rank, k: Rank): seq<T>
  {
    if s == [] then []
    else (if key(s[0]) == k then [s[0]] else []) + WithKey(s[1..], key, k)
  }

  /** Puts `x` in front of the first element that does not sort strictly before it. */
  function Insert<T>(x: T, s: seq<T>, key: T -> Rank): seq<T>
  {
    if s == [] || !Before(key(s[0]), key(x)) then [x] + s
    else [s[0]] + Insert(x, s[1..], key)
  }

  /** Stable insertion sort: earlier elements stay in front of equal-keyed later ones. */
  function SortBy<T>(s: seq<T>, key: T -> Rank): seq<T>
  {
    if s == [] then [] else Insert(s[0], SortBy(s[1..], key), key)
  }

  lemma {:induction false} InsertPermutes<T>(x: T, s: seq<T>, key: T -> Rank)
    ensures multiset(Insert(x, s, key)) == multiset{x} + multiset(s)
  {
    if s == [] || !Before(key(s[0]), key(x)) {
    } else {
      InsertPermutes(x, s[1..], key);
      assert s == [s[0]] + s[1..];
    }
  }

  lemma {:induction false} InsertSorted<T>(x: T, s: seq<T>, key: T -> Rank)
    requires SortedBy(s, key)
    ensures SortedBy(Insert(x, s, key), key)
  {
    if s == [] || !Before(key(s[0]), key(x)) {
      assert s != [] ==> (forall j :: 0 <= j < |s| ==> !Before(key(s[j]), key(s[0])));
      forall j | 0 < j < |s| ensures !Before(key(s[j]), key(x)) {
        assert !Before(key(s[j]), key(s[0]));
      }
    } else {
      var rest := Insert(x, s[1..], key);
      InsertSorted(x, s[1..], key);
      InsertPermutes(x, s[1..], key);
      forall j | 0 <= j < |rest| ensures !Before(key(rest[j]), key(s[0])) {
        assert rest[j] in multiset(rest);
        if rest[j] != x {
          assert rest[j] in multiset(s[1..]);
          var m :| 0 <= m < |s[1..]| && s[1..][m] == rest[j];
          assert s[m + 1] == rest[j];
        }
      }
    }
  }

  lemma {:induction false} InsertKeepsKeyClasses<T>(x: T, s: seq<T>, key: T -> Rank, k: Rank)
    ensures WithKey(Insert(x, s, key), key, k)
         == (if key(x) == k then [x] else []) + WithKey(s, key, k)
  {
    if s == [] || !Before(key(s[0]), key(x)) {
      WithKeyCons(x, s, key, k);
    } else {
      var rest := Insert(x, s[1..], key);
      InsertKeepsKeyClasses(x, s[1..], key, k);
      WithKeyCons(s[0], rest, key, k);
      WithKeyCons(s[0], s[1..], key, k);
      assert [s[0]] + s[1..] == s;
    }
  }

  /** Filtering a sequence with one more element in front. */
  lemma WithKeyCons<T>(x: T, s: seq<T>, key: T -> Rank, k: Rank)
    ensures WithKey([x] + s, key, k) == (if key(x) == k then [x] else []) + WithKey(s, key, k)
  {
    assert ([x] + s)[1..] == s;
  }

  /** The sort result is a permutation of its input. */
  lemma {:induction false} SortByPermutes<T>(s: seq<T>, key: T -> Rank)
    ensures multiset(SortBy(s, key)) == multiset(s)
    ensures |SortBy(s, key)| == |s|
  {
    if s != [] {
      SortByPermutes(s[1..], key);
      InsertPermutes(s[0], SortBy(s[1..], key), key);
      assert s == [s[0]] + s[1..];
    }
  }

  /** The sort result is ordered by the key. */
  lemma {:induction false} SortBySorted<T>(s: seq<T>, key: T -> Rank)
    ensures SortedBy(SortBy(s, key), key)
  {
    if s != [] {
      SortBySorted(s[1..], key);
      InsertSorted(s[0], SortBy(s[1..], key), key);
    }
  }

  /** Stability: elements with equal keys keep their relative input order. */
  lemma {:induction false} SortByStable<T>(s: seq<T>, key: T -> Rank, k: Rank)
    ensures WithKey(SortBy(s, key), key, k) == WithKey(s, key, k)
  {
    if s != [] {
      SortByStable(s[1..], key, k);
      InsertKeepsKeyClasses(s[0], SortBy(s[1..], key), key, k);
    }
  }

  /** Every element of the sorted result comes from the input. */
  lemma SortByMembers<T>(s: seq<T>, key: T -> Rank, y: T)
    ensures y in SortBy(s, key) <==> y in s
  {
    SortByPermutes(s, key);
    assert y in SortBy(s, key) <==> y in multiset(SortBy(s, key));
  }
}
