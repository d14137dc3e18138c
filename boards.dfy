/** What the two score boards share (src/utils/saveGame.ts:67-84, src/utils/leaderboard.ts:23-43):
    looking an entry up by name, ordering with `Array.prototype.sort` and a descending comparator,
    and trimming to the top entries. The sort is stable, so it is modelled as insertion sort: an
    element goes in front of the first one it ranks at least as high as, which keeps equally
    ranked elements in their original order. */
module Boards {

  /** `findIndex`: the first index whose element satisfies p, or -1. */
  function FirstIndex<T>(s: seq<T>, p: T -> bool): (k: int)
    ensures -1 <= k < |s|
    ensures k == -1 <==> forall i :: 0 <= i < |s| ==> !p(s[i])
    ensures k >= 0 ==> p(s[k]) && forall i :: 0 <= i < k ==> !p(s[i])
  {
    if s == [] then -1
    else if p(s[0]) then 0
    else
      var k := FirstIndex(s[1..], p);
      if k == -1 then -1 else k + 1
  }

  /** A comparator key: ordered by `major`, ties broken by `minor`, both descending. */
  datatype Rank = Rank(major: int, minor: int)

  /** a ranks at least as high as b. */
  predicate Outranks(a: Rank, b: Rank)
  {
    a.major > b.major || (a.major == b.major && a.minor >= b.minor)
  }

  ghost predicate SortedDesc<T>(s: seq<T>, key: T -> Rank)
  {
    forall i, j :: 0 <= i < j < |s| ==> Outranks(key(s[i]), key(s[j]))
  }

  /** Insertion of x in front of the first element it ranks at least as high as. */
  function Insert<T>(x: T, s: seq<T>, key: T -> Rank): seq<T>
  {
    if s == [] || Outranks(key(x), key(s[0])) then
      [x] + s
    else
      [s[0]] + Insert(x, s[1..], key)
  }

  /** The insertion holds the sequence's elements and x, and nothing else. */
  lemma {:induction false} InsertCounts<T>(x: T, s: seq<T>, key: T -> Rank)
    ensures multiset(Insert(x, s, key)) == multiset(s) + multiset{x}
    ensures |Insert(x, s, key)| == |s| + 1
  {
    if s != [] && !Outranks(key(x), key(s[0])) {
      InsertCounts(x, s[1..], key);
      assert s == [s[0]] + s[1..];
    }
  }

  /** An element of the insertion is the inserted one or an element of the sequence. */
  lemma InsertElements<T>(x: T, s: seq<T>, key: T -> Rank, y: T)
    requires y in Insert(x, s, key)
    ensures y == x || y in s
  {
    InsertCounts(x, s, key);
    assert y in multiset(Insert(x, s, key));
  }

  lemma {:induction false} InsertSorted<T>(x: T, s: seq<T>, key: T -> Rank)
    requires SortedDesc(s, key)
    ensures SortedDesc(Insert(x, s, key), key)
  {
    if s == [] || Outranks(key(x), key(s[0])) {
    } else {
      var rest := Insert(x, s[1..], key);
      InsertSorted(x, s[1..], key);
      forall y | y in rest
        ensures Outranks(key(s[0]), key(y))
      {
        InsertElements(x, s[1..], key, y);
      }
      var r := [s[0]] + rest;
      forall i, j | 0 <= i < j < |r|
        ensures Outranks(key(r[i]), key(r[j]))
      {
        if i == 0 {
          assert r[j] in rest;
        } else {
          assert r[i] == rest[i - 1] && r[j] == rest[j - 1];
        }
      }
    }
  }

  /** The sorted board: each element inserted, from the last one to the first. */
  function SortByRank<T>(s: seq<T>, key: T -> Rank): seq<T>
  {
    if s == [] then [] else Insert(s[0], SortByRank(s[1..], key), key)
  }

  /** The sorted board holds the same entries, in descending order of their keys. */
  lemma {:induction false} SortByRankProperties<T>(s: seq<T>, key: T -> Rank)
    ensures multiset(SortByRank(s, key)) == multiset(s)
    ensures |SortByRank(s, key)| == |s|
    ensures SortedDesc(SortByRank(s, key), key)
  {
    if s != [] {
      var rest := SortByRank(s[1..], key);
      SortByRankProperties(s[1..], key);
      InsertCounts(s[0], rest, key);
      InsertSorted(s[0], rest, key);
      assert s == [s[0]] + s[1..];
    }
  }

  /** `slice(0, n)`: the first n entries, or all of them. */
  function Top<T>(s: seq<T>, n: nat): (r: seq<T>)
    ensures |r| == if |s| <= n then |s| else n
    ensures r == s[..|r|]
    ensures |s| <= n ==> r == s
  {
    if |s| <= n then s else s[..n]
  }

  /** After sorting, the trim drops only entries that every kept entry outranks. */
  lemma TopKeepsBest<T>(s: seq<T>, key: T -> Rank, n: nat, i: int, j: int)
    requires SortedDesc(s, key)
    requires 0 <= i < |Top(s, n)| <= j < |s|
    ensures Outranks(key(Top(s, n)[i]), key(s[j]))
  {
  }

  /** No two elements share their f-value. */
  ghost predicate Distinct<T, K>(s: seq<T>, f: T -> K)
  {
    forall i, j :: 0 <= i < j < |s| ==> f(s[i]) != f(s[j])
  }

  lemma {:induction false} InsertKeepsDistinct<T, K>(x: T, s: seq<T>, key: T -> Rank, f: T -> K)
    requires Distinct(s, f)
    requires forall y :: y in s ==> f(y) != f(x)
    ensures Distinct(Insert(x, s, key), f)
  {
    if s == [] || Outranks(key(x), key(s[0])) {
    } else {
      var rest := Insert(x, s[1..], key);
      InsertKeepsDistinct(x, s[1..], key, f);
      forall y | y in rest
        ensures f(y) != f(s[0])
      {
        InsertElements(x, s[1..], key, y);
      }
      var r := [s[0]] + rest;
      forall i, j | 0 <= i < j < |r|
        ensures f(r[i]) != f(r[j])
      {
        if i == 0 {
          assert r[j] in rest;
        } else {
          assert r[i] == rest[i - 1] && r[j] == rest[j - 1];
        }
      }
    }
  }

  /** Sorting never makes two entries share a name (or any other attribute). */
  lemma {:induction false} SortKeepsDistinct<T, K>(s: seq<T>, key: T -> Rank, f: T -> K)
    requires Distinct(s, f)
    ensures Distinct(SortByRank(s, key), f)
  {
    if s != [] {
      var rest := SortByRank(s[1..], key);
      SortKeepsDistinct(s[1..], key, f);
      SortByRankProperties(s[1..], key);
      forall y | y in rest
        ensures f(y) != f(s[0])
      {
        assert y in multiset(rest);
        assert y in multiset(s[1..]);
        var j :| 0 <= j < |s[1..]| && s[1..][j] == y;
        assert s[j + 1] == y;
      }
      InsertKeepsDistinct(s[0], rest, key, f);
    }
  }

  lemma TopKeepsDistinct<T, K>(s: seq<T>, n: nat, f: T -> K)
    requires Distinct(s, f)
    ensures Distinct(Top(s, n), f)
  {
  }

  lemma TopKeepsSorted<T>(s: seq<T>, n: nat, key: T -> Rank)
    requires SortedDesc(s, key)
    ensures SortedDesc(Top(s, n), key)
  {
  }
}
