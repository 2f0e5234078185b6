/** Ranking by a numeric key, in descending order, as the composer does with
    `sort((a, b) => b.score - a.score)`. ECMAScript requires
    `Array.prototype.sort` to be stable (ECMAScript 2023, section 23.1.3.30),
    so elements with equal keys keep their input order; the sort is modelled
    by a stable insertion sort. */
module Ranking {

  ghost predicate NonIncreasing<T>(s: seq<T>, key: T -> int) {
    forall i, j :: 0 <= i < j < |s| ==> key(s[i]) >= key(s[j])
  }

  /** Descending by key, and among equal keys ascending by rank. */
  ghost predicate StablyOrdered<T>(s: seq<T>, key: T -> int, rank: T -> int) {
    forall i, j :: 0 <= i < j < |s| ==>
      key(s[i]) > key(s[j]) || (key(s[i]) == key(s[j]) && rank(s[i]) < rank(s[j]))
  }

  ghost predicate RankIncreasing<T>(s: seq<T>, rank: T -> int) {
    forall i, j :: 0 <= i < j < |s| ==> rank(s[i]) < rank(s[j])
  }

  /** Insert `x` in front of the first element whose key is not larger. */
  function Insert<T>(x: T, t: seq<T>, key: T -> int): (r: seq<T>)
    ensures |r| == |t| + 1
    ensures multiset(r) == multiset(t) + multiset{x}
    ensures forall y :: y in r ==> y == x || y in t
  {
    if t == [] || key(x) >= key(t[0]) then [x] + t
    else
      assert t == [t[0]] + t[1..];
      [t[0]] + Insert(x, t[1..], key)
  }

  /** Insertion keeps a non-increasing sequence non-increasing. */
  lemma {:induction false} InsertSorted<T>(x: T, t: seq<T>, key: T -> int)
    requires NonIncreasing(t, key)
    ensures NonIncreasing(Insert(x, t, key), key)
  {
    if t != [] && key(x) < key(t[0]) {
      InsertSorted(x, t[1..], key);
      var r := Insert(x, t, key);
      forall j | 1 <= j < |r| ensures key(r[0]) >= key(r[j]) {
        assert r[j] in Insert(x, t[1..], key);
        if r[j] != x {
          var m :| 0 <= m < |t[1..]| && t[1..][m] == r[j];
          assert t[m + 1] == r[j];
        }
      }
    }
  }

  /** The stable descending sort. */
  function SortDesc<T>(s: seq<T>, key: T -> int): (r: seq<T>)
    ensures |r| == |s|
    ensures multiset(r) == multiset(s)
    ensures NonIncreasing(r, key)
  {
    if s == [] then []
    else
      assert s == [s[0]] + s[1..];
      InsertSorted(s[0], SortDesc(s[1..], key), key);
      Insert(s[0], SortDesc(s[1..], key), key)
  }

  /** The index of the first element with the largest key: the reference
      definition of "sort descending, then take the head". */
  function FirstMax<T>(s: seq<T>, key: T -> int): (k: nat)
    requires |s| > 0
    ensures k < |s|
    ensures forall j :: 0 <= j < |s| ==> key(s[j]) <= key(s[k])
    ensures forall j :: 0 <= j < k ==> key(s[j]) < key(s[k])
  {
    if |s| == 1 then 0
    else
      var k := FirstMax(s[1..], key);
      if key(s[0]) >= key(s[1..][k]) then 0 else k + 1
  }

  /** The head of the sorted sequence is the first element of largest key:
      ties go to the earliest element. */
  lemma {:induction false} SortDescHead<T>(s: seq<T>, key: T -> int)
    requires |s| > 0
    ensures SortDesc(s, key)[0] == s[FirstMax(s, key)]
  {
    if |s| > 1 {
      SortDescHead(s[1..], key);
    }
  }

  lemma {:induction false} InsertStable<T>(x: T, t: seq<T>, key: T -> int, rank: T -> int)
    requires StablyOrdered(t, key, rank)
    requires forall y :: y in t ==> rank(x) < rank(y)
    ensures StablyOrdered(Insert(x, t, key), key, rank)
  {
    if t != [] && key(x) < key(t[0]) {
      InsertStable(x, t[1..], key, rank);
      var r := Insert(x, t, key);
      forall i, j | 0 <= i < j < |r|
        ensures key(r[i]) > key(r[j]) || (key(r[i]) == key(r[j]) && rank(r[i]) < rank(r[j]))
      {
        if i == 0 {
          assert r[j] in Insert(x, t[1..], key);
          if r[j] != x {
            var m :| 0 <= m < |t[1..]| && t[1..][m] == r[j];
            assert t[m + 1] == r[j];
          }
        }
      }
    }
  }

  /** Stability: if the input is ordered by rank, the output is ordered by
      descending key and, among equal keys, still by rank. */
  lemma {:induction false} SortDescStable<T>(s: seq<T>, key: T -> int, rank: T -> int)
    requires RankIncreasing(s, rank)
    ensures StablyOrdered(SortDesc(s, key), key, rank)
  {
    if s != [] {
      SortDescStable(s[1..], key, rank);
      var t := SortDesc(s[1..], key);
      forall y | y in t ensures rank(s[0]) < rank(y) {
        assert y in multiset(t);
        assert y in s[1..];
      }
      InsertStable(s[0], t, key, rank);
    }
  }
}
