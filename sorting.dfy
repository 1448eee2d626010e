/**
 * `Array.prototype.sort` with a "larger first" comparator on one or two numeric
 * fields, as the analytics page sorts its tables. JavaScript's sort is stable, so
 * the model is a stable insertion sort; it is proved ordered, a permutation of its
 * input, and order-preserving among equal ranks.
 */
module Sorting {

  /** The numbers a comparator looks at: `major` first, `minor` to break ties. */
  datatype Rank = Rank(major: int, minor: int)

  /** `a` goes strictly before `b` under the comparator `(x, y) => (y.major - x.major) || (y.minor - x.minor)`. */
  predicate Above(a: Rank, b: Rank) {
    a.major > b.major || (a.major == b.major && a.minor > b.minor)
  }

  predicate SortedDesc<T>(s: seq<T>, key: T -> Rank) {
    forall i, j :: 0 <= i < j < |s| ==> !Above(key(s[j]), key(s[i]))
  }

  /** The elements of `s` whose rank is `rk`, in their order in `s`. */
  function WithRank<T>(s: seq<T>, key: T -> Rank, rk: Rank): seq<T> {
    if s == [] then [] else (if key(s[0]) == rk then [s[0]] else []) + WithRank(s[1..], key, rk)
  }

  /** Places `x` after every element it does not strictly precede. */
  function Insert<T>(x: T, r: seq<T>, key: T -> Rank): seq<T> {
    if r == [] then [x]
    else if Above(key(x), key(r[0])) then [x] + r
    else [r[0]] + Insert(x, r[1..], key)
  }

  function SortDesc<T>(s: seq<T>, key: T -> Rank): seq<T> {
    if s == [] then [] else Insert(s[|s| - 1], SortDesc(s[..|s| - 1], key), key)
  }

  lemma {:induction false} InsertPerm<T>(x: T, r: seq<T>, key: T -> Rank)
    ensures multiset(Insert(x, r, key)) == multiset(r) + multiset{x}
  {
    if r != [] && !Above(key(x), key(r[0])) {
      InsertPerm(x, r[1..], key);
      assert r == [r[0]] + r[1..];
    }
  }

  lemma {:induction false} InsertSorted<T>(x: T, r: seq<T>, key: T -> Rank)
    requires SortedDesc(r, key)
    ensures SortedDesc(Insert(x, r, key), key)
  {
    if r != [] && !Above(key(x), key(r[0])) {
      InsertSorted(x, r[1..], key);
      InsertPerm(x, r[1..], key);
      var t := Insert(x, r[1..], key);
      var u := [r[0]] + t;
      forall i, j | 0 <= i < j < |u| ensures !Above(key(u[j]), key(u[i])) {
        if i == 0 {
          var y := t[j - 1];
          assert y in multiset(t);
          if y != x {
            assert y in multiset(r[1..]);
            var k :| 0 <= k < |r[1..]| && r[1..][k] == y;
            assert r[k + 1] == y;
          }
        }
      }
    }
  }

  lemma {:induction false} InsertStable<T>(x: T, r: seq<T>, key: T -> Rank, rk: Rank)
    requires SortedDesc(r, key)
    ensures WithRank(Insert(x, r, key), key, rk) == WithRank(r, key, rk) + (if key(x) == rk then [x] else [])
  {
    var tail := if key(x) == rk then [x] else [];
    if r == [] {
      assert WithRank([x], key, rk) == tail + WithRank([], key, rk);
    } else if Above(key(x), key(r[0])) {
      var u := [x] + r;
      assert u[1..] == r;
      assert WithRank(u, key, rk) == tail + WithRank(r, key, rk);
      if key(x) == rk {
        NoneAbove(r, key, rk);
      }
    } else {
      var r1 := r[1..];
      SortedTail(r, key);
      InsertStable(x, r1, key, rk);
      var t := Insert(x, r1, key);
      var u := [r[0]] + t;
      var head := if key(r[0]) == rk then [r[0]] else [];
      assert u[1..] == t;
      calc {
        WithRank(Insert(x, r, key), key, rk);
        WithRank(u, key, rk);
        head + WithRank(t, key, rk);
        head + (WithRank(r1, key, rk) + tail);
        (head + WithRank(r1, key, rk)) + tail;
        WithRank(r, key, rk) + tail;
      }
    }
  }

  lemma SortedTail<T>(r: seq<T>, key: T -> Rank)
    requires SortedDesc(r, key) && r != []
    ensures SortedDesc(r[1..], key)
  {
    forall i, j | 0 <= i < j < |r[1..]| ensures !Above(key(r[1..][j]), key(r[1..][i])) {
      assert r[1..][j] == r[j + 1] && r[1..][i] == r[i + 1];
    }
  }

  /** In a list sorted larger-first whose head ranks below `rk`, nothing has rank `rk`. */
  lemma {:induction false} NoneAbove<T>(r: seq<T>, key: T -> Rank, rk: Rank)
    requires SortedDesc(r, key)
    requires r != [] ==> Above(rk, key(r[0]))
    ensures WithRank(r, key, rk) == []
  {
    if r != [] {
      SortedTail(r, key);
      assert r[1..] != [] ==> r[1..][0] == r[1];
      NoneAbove(r[1..], key, rk);
    }
  }

  lemma {:induction false} WithRankAppend<T>(s: seq<T>, x: T, key: T -> Rank, rk: Rank)
    ensures WithRank(s + [x], key, rk) == WithRank(s, key, rk) + (if key(x) == rk then [x] else [])
  {
    if s != [] {
      assert (s + [x])[1..] == s[1..] + [x];
      WithRankAppend(s[1..], x, key, rk);
    }
  }

  /**
   * The sorted list is ordered larger-first, holds exactly the input's elements,
   * and keeps elements of equal rank in their input order (stability).
   */
  lemma {:induction false} SortDescSpec<T>(s: seq<T>, key: T -> Rank)
    ensures SortedDesc(SortDesc(s, key), key)
    ensures multiset(SortDesc(s, key)) == multiset(s)
    ensures forall rk :: WithRank(SortDesc(s, key), key, rk) == WithRank(s, key, rk)
  {
    if s != [] {
      var init, last := s[..|s| - 1], s[|s| - 1];
      SortDescSpec(init, key);
      InsertSorted(last, SortDesc(init, key), key);
      InsertPerm(last, SortDesc(init, key), key);
      assert s == init + [last];
      forall rk ensures WithRank(SortDesc(s, key), key, rk) == WithRank(s, key, rk) {
        InsertStable(last, SortDesc(init, key), key, rk);
        WithRankAppend(init, last, key, rk);
      }
    }
  }
}
