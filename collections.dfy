/**
 * The collection idioms the routes rely on: `Array.from(new Set(xs))`,
 * insertion-ordered maps (JavaScript `Map`, and plain objects whose keys are not
 * array indices), and cutting a list into fixed-size batches.
 */
module Collections {
  import opened Wrappers

  predicate Distinct<T(==)>(s: seq<T>) {
    forall i, j :: 0 <= i < j < |s| ==> s[i] != s[j]
  }

  /**
   * `Array.from(new Set(s))`: each element once, at the place of its first
   * occurrence (a `Set` iterates in insertion order and ignores re-insertion).
   */
  function Dedup<T(==,!new)>(s: seq<T>): (r: seq<T>)
    ensures Distinct(r)
    ensures forall x :: x in r <==> x in s
    ensures |r| <= |s|
  {
    if s == [] then []
    else
      var d := Dedup(s[..|s| - 1]);
      assert forall x :: x in s <==> x in s[..|s| - 1] || x == s[|s| - 1];
      if s[|s| - 1] in d then d else d + [s[|s| - 1]]
  }

  /** Deduplicating a prefix gives a prefix: the order is the order of first occurrence. */
  lemma {:induction false} DedupPrefix<T(!new)>(s: seq<T>, k: nat)
    requires k <= |s|
    ensures Dedup(s[..k]) <= Dedup(s)
    decreases |s|
  {
    if k < |s| {
      assert s[..|s| - 1][..k] == s[..k];
      DedupPrefix(s[..|s| - 1], k);
    } else {
      assert s[..k] == s;
    }
  }

  /** A list without repetitions is its own deduplication. */
  lemma {:induction false} DedupOfDistinct<T(!new)>(s: seq<T>)
    requires Distinct(s)
    ensures Dedup(s) == s
  {
    if s != [] {
      DedupOfDistinct(s[..|s| - 1]);
      assert s[|s| - 1] !in s[..|s| - 1];
      assert s[..|s| - 1] + [s[|s| - 1]] == s;
    }
  }

  lemma DedupIdempotent<T(!new)>(s: seq<T>)
    ensures Dedup(Dedup(s)) == Dedup(s)
  {
    DedupOfDistinct(Dedup(s));
  }

  /** Adding an element: it goes last unless it was already there. */
  lemma DedupSnoc<T(!new)>(s: seq<T>, x: T)
    ensures Dedup(s + [x]) == if x in Dedup(s) then Dedup(s) else Dedup(s) + [x]
  {
    assert (s + [x])[..|s|] == s;
  }

  // ----- insertion-ordered maps -----

  /** A `Map` (or a plain object with non-index keys): entries in insertion order. */
  type Entries<K, V> = seq<(K, V)>

  function Keys<K, V>(m: Entries<K, V>): (r: seq<K>)
    ensures |r| == |m| && forall i :: 0 <= i < |m| ==> r[i] == m[i].0
  {
    seq(|m|, i requires 0 <= i < |m| => m[i].0)
  }

  predicate DistinctKeys<K(==), V>(m: Entries<K, V>) {
    Distinct(Keys(m))
  }

  /** First index of `k` in `s`. */
  function IndexIn<K(==)>(s: seq<K>, k: K): (r: Option<nat>)
    ensures r.Some? ==> r.value < |s| && s[r.value] == k
    ensures r.Some? ==> forall j :: 0 <= j < r.value ==> s[j] != k
    ensures r.None? <==> k !in s
  {
    if s == [] then None
    else if s[0] == k then Some(0)
    else
      var r := IndexIn(s[1..], k);
      if r.Some? then Some(r.value + 1) else None
  }

  lemma {:induction false} IndexInAppend<K>(s: seq<K>, x: K, y: K)
    ensures IndexIn(s + [x], y) == if y in s then IndexIn(s, y) else if y == x then Some(|s|) else None
  {
    if s != [] {
      assert (s + [x])[1..] == s[1..] + [x];
      IndexInAppend(s[1..], x, y);
    }
  }

  /** Index of the entry for `k`. */
  function FindKey<K(==), V>(m: Entries<K, V>, k: K): (r: Option<nat>)
    ensures r.Some? ==> r.value < |m| && m[r.value].0 == k
    ensures r.None? <==> k !in Keys(m)
  {
    IndexIn(Keys(m), k)
  }

  /** `map.get(k)` */
  function Lookup<K(==), V>(m: Entries<K, V>, k: K): Option<V> {
    match FindKey(m, k)
    case Some(i) => Some(m[i].1)
    case None => None
  }

  /**
   * `map.set(k, v)` / `obj[k] = v`: a present key keeps its place and takes the new
   * value, a new key goes last.
   */
  function Put<K(==,!new), V>(m: Entries<K, V>, k: K, v: V): (r: Entries<K, V>)
    ensures Keys(r) == if k in Keys(m) then Keys(m) else Keys(m) + [k]
    ensures DistinctKeys(m) ==> DistinctKeys(r)
    ensures Lookup(r, k) == Some(v)
    ensures forall k' :: k' != k ==> Lookup(r, k') == Lookup(m, k')
  {
    match FindKey(m, k)
    case Some(i) =>
      var r := m[i := (k, v)];
      assert Keys(r) == Keys(m);
      r
    case None =>
      var r := m + [(k, v)];
      assert Keys(r) == Keys(m) + [k];
      assert forall k' :: FindKey(r, k') == if k' in Keys(m) then FindKey(m, k') else if k' == k then Some(|m|) else None by {
        forall k' ensures FindKey(r, k') == if k' in Keys(m) then FindKey(m, k') else if k' == k then Some(|m|) else None {
          IndexInAppend(Keys(m), k, k');
        }
      }
      r
  }

  /** Builds an insertion-ordered map from pairs, left to right (`new Map(pairs)`). */
  function FromPairs<K(==,!new), V>(ps: seq<(K, V)>): (r: Entries<K, V>)
    ensures DistinctKeys(r)
  {
    if ps == [] then [] else Put(FromPairs(ps[..|ps| - 1]), ps[|ps| - 1].0, ps[|ps| - 1].1)
  }

  /** Value of the last pair with key `k`. */
  function LastValue<K(==), V>(ps: seq<(K, V)>, k: K): Option<V> {
    if ps == [] then None
    else if ps[|ps| - 1].0 == k then Some(ps[|ps| - 1].1)
    else LastValue(ps[..|ps| - 1], k)
  }

  /**
   * `new Map(pairs)` keeps each key at its first occurrence and gives it the value of
   * its last occurrence.
   */
  lemma {:induction false} FromPairsSpec<K(!new), V>(ps: seq<(K, V)>)
    ensures Keys(FromPairs(ps)) == Dedup(Keys(ps))
    ensures forall k :: Lookup(FromPairs(ps), k) == LastValue(ps, k)
  {
    if ps != [] {
      var init := ps[..|ps| - 1];
      FromPairsSpec(init);
      assert Keys(init) == Keys(ps)[..|ps| - 1];
    }
  }

  function Values<K, V>(m: Entries<K, V>): (r: seq<V>)
    ensures |r| == |m| && forall i :: 0 <= i < |m| ==> r[i] == m[i].1
  {
    seq(|m|, i requires 0 <= i < |m| => m[i].1)
  }

  // ----- batches -----

  function Flatten<T>(bs: seq<seq<T>>): seq<T> {
    if bs == [] then [] else bs[0] + Flatten(bs[1..])
  }

  lemma {:induction false} FlattenAppend<T>(bs: seq<seq<T>>, b: seq<T>)
    ensures Flatten(bs + [b]) == Flatten(bs) + b
  {
    if bs != [] {
      assert (bs + [b])[1..] == bs[1..] + [b];
      FlattenAppend(bs[1..], b);
    }
  }

  /**
   * `bs` cuts `s` into consecutive batches of `n`: together they are `s` in order, and
   * every batch holds `n` elements except a shorter (non-empty) last one.
   */
  predicate IsBatching<T(==)>(bs: seq<seq<T>>, s: seq<T>, n: nat) {
    && Flatten(bs) == s
    && (forall i :: 0 <= i < |bs| ==> 0 < |bs[i]| <= n)
    && (forall i :: 0 <= i < |bs| - 1 ==> |bs[i]| == n)
  }

  function Sum(s: seq<nat>): nat {
    if s == [] then 0 else Sum(s[..|s| - 1]) + s[|s| - 1]
  }

  lemma {:induction false} SumUpdate(s: seq<nat>, i: nat, x: nat)
    requires i < |s|
    ensures Sum(s[i := x]) + s[i] == Sum(s) + x
  {
    var t := s[i := x];
    if i < |s| - 1 {
      assert t[..|t| - 1] == s[..|s| - 1][i := x];
      SumUpdate(s[..|s| - 1], i, x);
    } else {
      assert t[..|t| - 1] == s[..|s| - 1];
    }
  }

  /** The count of `x` in a sequence is its count before the last element, plus one if the last is `x`. */
  lemma CountSnoc<T>(s: seq<T>, x: T)
    requires s != []
    ensures multiset(s)[x] == multiset(s[..|s| - 1])[x] + (if s[|s| - 1] == x then 1 else 0)
  {
    assert s == s[..|s| - 1] + [s[|s| - 1]];
  }

  /** Splitting off the last element of the second of two appended sequences. */
  lemma AppendSnoc<T>(a: seq<T>, b: seq<T>)
    requires b != []
    ensures b == b[..|b| - 1] + [b[|b| - 1]]
    ensures a + b == (a + b[..|b| - 1]) + [b[|b| - 1]]
  {
  }

  lemma ConcatAssoc<T>(a: seq<T>, b: seq<T>, c: seq<T>)
    ensures (a + b) + c == a + (b + c)
  {
  }

  /** What lies before and after the join point of two sequences. */
  lemma AfterPrefix<T>(a: seq<T>, b: seq<T>)
    ensures (a + b)[..|a|] == a && (a + b)[|a|..] == b
  {
  }

  lemma SumSnoc(s: seq<nat>, x: nat)
    ensures Sum(s + [x]) == Sum(s) + x
  {
    assert (s + [x])[..|s|] == s;
  }

  /** Setting a key replaces its old value (or nothing) in the sum of the values. */
  lemma SumAfterPut<K(!new)>(m: Entries<K, nat>, k: K, v: nat)
    ensures Sum(Values(Put(m, k, v))) + Lookup(m, k).GetOr(0) == Sum(Values(m)) + v
  {
    match FindKey(m, k)
    case Some(i) =>
      assert Values(m[i := (k, v)]) == Values(m)[i := v];
      SumUpdate(Values(m), i, v);
    case None =>
      assert Values(m + [(k, v)]) == Values(m) + [v];
      SumSnoc(Values(m), v);
  }
}
