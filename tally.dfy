/**
 * Grouping and counting by a key, the shape shared by the admin views:
 * `new Set(xs.map(key))`, a `Map` filled in first-appearance order, and
 * `acc[key] = (acc[key] || 0) + 1` reductions.
 */
module Tally {
  import opened Seqs

  predicate Distinct<K(==)>(ks: seq<K>) {
    forall i, j :: 0 <= i < j < |ks| ==> ks[i] != ks[j]
  }

  /** Some element of `s` has key `k`. */
  predicate HasKey<T, K(==)>(s: seq<T>, key: T -> K, k: K) {
    exists i :: 0 <= i < |s| && key(s[i]) == k
  }

  /**
   * The distinct keys of `s` in order of first appearance: the key order of
   * a JavaScript `Map` (or `Set`) filled by a forward loop over `s`.
   */
  function Keys<T, K(==,!new)>(s: seq<T>, key: T -> K): (r: seq<K>)
    ensures Distinct(r)
    ensures forall k :: k in r <==> HasKey(s, key, k)
    ensures |r| <= |s|
  {
    if s == [] then []
    else
      var init := s[..|s| - 1];
      var r := Keys(init, key);
      var k := key(s[|s| - 1]);
      assert forall k' :: HasKey(init, key, k') ==> HasKey(s, key, k') by {
        forall k' | HasKey(init, key, k') ensures HasKey(s, key, k') {
          var i :| 0 <= i < |init| && key(init[i]) == k';
          assert s[i] == init[i];
        }
      }
      assert forall k' :: HasKey(s, key, k') ==> HasKey(init, key, k') || k' == k by {
        forall k' | HasKey(s, key, k') ensures HasKey(init, key, k') || k' == k {
          var i :| 0 <= i < |s| && key(s[i]) == k';
          if i < |init| { assert init[i] == s[i]; }
        }
      }
      if k in r then r else r + [k]
  }

  lemma HasKeySnoc<T, K>(s: seq<T>, x: T, key: T -> K, k: K)
    ensures HasKey(s + [x], key, k) <==> HasKey(s, key, k) || key(x) == k
  {
    var t := s + [x];
    if HasKey(s, key, k) {
      var i :| 0 <= i < |s| && key(s[i]) == k;
      assert t[i] == s[i];
    }
    if key(x) == k {
      assert t[|s|] == x;
    }
  }

  /** The keys of `s + [x]`: those of `s`, then `x`'s key if it is new. */
  lemma KeysSnoc<T, K(!new)>(s: seq<T>, x: T, key: T -> K)
    ensures Keys(s + [x], key) == Keys(s, key) + (if HasKey(s, key, key(x)) then [] else [key(x)])
  {
    assert (s + [x])[..|s|] == s;
  }

  /** No element has key `k` exactly when none is selected for it. */
  lemma WithKeyEmpty<T(!new), K>(s: seq<T>, key: T -> K, k: K)
    ensures WithKey(s, key, k) == [] <==> !HasKey(s, key, k)
  {
    if HasKey(s, key, k) {
      var i :| 0 <= i < |s| && key(s[i]) == k;
      assert s[i] in WithKey(s, key, k);
    }
    if WithKey(s, key, k) != [] {
      var x := WithKey(s, key, k)[0];
      assert x in s;
      var i :| 0 <= i < |s| && s[i] == x;
    }
  }

  /** How many elements of `s` have key `k`. */
  function Count<T(!new), K(==)>(s: seq<T>, key: T -> K, k: K): nat {
    |WithKey(s, key, k)|
  }

  lemma {:induction false} CountCons<T(!new), K>(x: T, s: seq<T>, key: T -> K, k: K)
    ensures Count([x] + s, key, k) == (if key(x) == k then 1 else 0) + Count(s, key, k)
  {
    assert ([x] + s)[1..] == s;
  }

  /** The counts of the keys listed in `ks`, added up. */
  function SumCounts<T(!new), K(==)>(s: seq<T>, key: T -> K, ks: seq<K>): nat {
    if ks == [] then 0 else Count(s, key, ks[0]) + SumCounts(s, key, ks[1..])
  }

  lemma SumCountsCons<T(!new), K>(s: seq<T>, key: T -> K, k: K, ks: seq<K>)
    ensures SumCounts(s, key, [k] + ks) == Count(s, key, k) + SumCounts(s, key, ks)
  {
    assert ([k] + ks)[1..] == ks;
  }

  /** How often `k` occurs in `ks`. */
  function Occurrences<K(==)>(ks: seq<K>, k: K): nat {
    if ks == [] then 0 else (if ks[0] == k then 1 else 0) + Occurrences(ks[1..], k)
  }

  lemma {:induction false} OccurrencesOfDistinct<K>(ks: seq<K>, k: K)
    requires Distinct(ks)
    ensures Occurrences(ks, k) == if k in ks then 1 else 0
  {
    if ks != [] {
      OccurrencesOfDistinct(ks[1..], k);
      if ks[0] == k {
        assert k !in ks[1..] by {
          forall j | 0 <= j < |ks[1..]| ensures ks[1..][j] != k {
            assert ks[1..][j] == ks[j + 1];
          }
        }
      }
    }
  }

  lemma {:induction false} SumCountsOfCons<T(!new), K>(x: T, s: seq<T>, key: T -> K, ks: seq<K>)
    ensures SumCounts([x] + s, key, ks) == Occurrences(ks, key(x)) + SumCounts(s, key, ks)
  {
    if ks != [] {
      CountCons(x, s, key, ks[0]);
      SumCountsOfCons(x, s, key, ks[1..]);
    }
  }

  /**
   * When `ks` lists every key of `s` once, the per-key counts add up to
   * the number of elements: each element is counted in exactly one bucket.
   */
  lemma {:induction false} CountsPartition<T(!new), K>(s: seq<T>, key: T -> K, ks: seq<K>)
    requires Distinct(ks)
    requires forall i :: 0 <= i < |s| ==> key(s[i]) in ks
    ensures SumCounts(s, key, ks) == |s|
  {
    if s == [] {
      SumCountsEmpty(key, ks);
    } else {
      assert s == [s[0]] + s[1..];
      CountsPartition(s[1..], key, ks);
      SumCountsOfCons(s[0], s[1..], key, ks);
      OccurrencesOfDistinct(ks, key(s[0]));
    }
  }

  lemma {:induction false} SumCountsEmpty<T(!new), K>(key: T -> K, ks: seq<K>)
    ensures SumCounts([], key, ks) == 0
  {
    if ks != [] {
      SumCountsEmpty(key, ks[1..]);
    }
  }

  /** The `f`-sums of the elements with each key listed in `ks`, added up. */
  function KeySum<T(!new), K(==)>(s: seq<T>, key: T -> K, ks: seq<K>, f: T -> int): int {
    if ks == [] then 0 else Sum(WithKey(s, key, ks[0]), f) + KeySum(s, key, ks[1..], f)
  }

  lemma {:induction false} SumWithKeySnoc<T(!new), K>(s: seq<T>, x: T, key: T -> K, k: K, f: T -> int)
    ensures Sum(WithKey(s + [x], key, k), f) == Sum(WithKey(s, key, k), f) + (if key(x) == k then f(x) else 0)
  {
    FilterSnoc(s, x, y => key(y) == k);
    var w := WithKey(s, key, k);
    assert WithKey(s + [x], key, k) == w + (if key(x) == k then [x] else []);
    if key(x) == k {
      SumConcat(w, [x], f);
      assert Sum([x], f) == Sum([], f) + f(x);
      assert Sum(w + [x], f) == Sum(w, f) + f(x);
    } else {
      assert WithKey(s + [x], key, k) == w;
    }
  }

  lemma {:induction false} KeySumSnoc<T(!new), K>(s: seq<T>, x: T, key: T -> K, ks: seq<K>, f: T -> int)
    requires Distinct(ks)
    ensures KeySum(s + [x], key, ks, f) == KeySum(s, key, ks, f) + (if key(x) in ks then f(x) else 0)
  {
    if ks != [] {
      assert Distinct(ks[1..]);
      KeySumSnoc(s, x, key, ks[1..], f);
      SumWithKeySnoc(s, x, key, ks[0], f);
      assert key(x) in ks <==> key(x) == ks[0] || key(x) in ks[1..] by {
        assert ks == [ks[0]] + ks[1..];
      }
      if key(x) == ks[0] {
        assert key(x) !in ks[1..];
      }
    }
  }

  /**
   * When `ks` lists every key of `s` once, the per-key sums of `f` add up
   * to the sum of `f` over all of `s`: grouping by key loses and
   * duplicates nothing.
   */
  lemma {:induction false} KeySumPartition<T(!new), K>(s: seq<T>, key: T -> K, ks: seq<K>, f: T -> int)
    requires Distinct(ks)
    requires forall i :: 0 <= i < |s| ==> key(s[i]) in ks
    ensures KeySum(s, key, ks, f) == Sum(s, f)
  {
    if s == [] {
      KeySumEmpty(key, ks, f);
    } else {
      var init := s[..|s| - 1];
      var x := s[|s| - 1];
      assert s == init + [x];
      assert forall i :: 0 <= i < |init| ==> init[i] == s[i];
      KeySumPartition(init, key, ks, f);
      KeySumSnoc(init, x, key, ks, f);
    }
  }

  lemma {:induction false} KeySumEmpty<T(!new), K>(key: T -> K, ks: seq<K>, f: T -> int)
    ensures KeySum([], key, ks, f) == 0
  {
    if ks != [] {
      KeySumEmpty(key, ks[1..], f);
    }
  }

  /** Every element weighs one: `Sum(s, One)` counts. */
  function One<T>(x: T): int { 1 }

  lemma {:induction false} SumOnes<T>(s: seq<T>)
    ensures Sum(s, One) == |s|
  {
    if s != [] {
      SumOnes(s[..|s| - 1]);
    }
  }

  /**
   * `s.reduce((acc, x) => { acc[key(x)] = (acc[key(x)] || 0) + f(x); return acc }, {})`:
   * a record from each key met to the running total of `f` for it.
   */
  function SumMap<T, K(==)>(s: seq<T>, key: T -> K, f: T -> int): map<K, int> {
    if s == [] then map[]
    else
      var m := SumMap(s[..|s| - 1], key, f);
      var x := s[|s| - 1];
      m[key(x) := (if key(x) in m then m[key(x)] else 0) + f(x)]
  }

  lemma SumMapSnoc<T, K>(s: seq<T>, x: T, key: T -> K, f: T -> int)
    ensures var m := SumMap(s, key, f);
      SumMap(s + [x], key, f) == m[key(x) := (if key(x) in m then m[key(x)] else 0) + f(x)]
  {
    assert (s + [x])[..|s|] == s;
  }

  /**
   * The record holds exactly the keys that occur, and for each the sum of
   * `f` over the elements with that key.
   */
  lemma {:induction false} SumMapSpec<T(!new), K>(s: seq<T>, key: T -> K, f: T -> int, k: K)
    ensures k in SumMap(s, key, f) <==> HasKey(s, key, k)
    ensures k in SumMap(s, key, f) ==> SumMap(s, key, f)[k] == Sum(WithKey(s, key, k), f)
  {
    if s != [] {
      var init := s[..|s| - 1];
      var x := s[|s| - 1];
      assert s == init + [x];
      SumMapSpec(init, key, f, k);
      HasKeySnoc(init, x, key, k);
      SumWithKeySnoc(init, x, key, k, f);
      WithKeyEmpty(init, key, k);
    }
  }

  /** The values of `m` for the keys listed in `ks`, added up; an absent key adds nothing. */
  function MapTotal<K>(m: map<K, int>, ks: seq<K>): int {
    if ks == [] then 0 else (if ks[0] in m then m[ks[0]] else 0) + MapTotal(m, ks[1..])
  }

  lemma {:induction false} MapTotalOfSumMap<T(!new), K>(s: seq<T>, key: T -> K, f: T -> int, ks: seq<K>)
    ensures MapTotal(SumMap(s, key, f), ks) == KeySum(s, key, ks, f)
  {
    if ks != [] {
      MapTotalOfSumMap(s, key, f, ks[1..]);
      SumMapSpec(s, key, f, ks[0]);
      WithKeyEmpty(s, key, ks[0]);
    }
  }

  /**
   * Adding up the record over its keys, in the order they first occur,
   * gives the sum of `f` over all of `s`: grouping loses nothing.
   */
  lemma SumMapTotal<T(!new), K(!new)>(s: seq<T>, key: T -> K, f: T -> int)
    ensures MapTotal(SumMap(s, key, f), Keys(s, key)) == Sum(s, f)
  {
    var ks := Keys(s, key);
    forall i | 0 <= i < |s| ensures key(s[i]) in ks {
      assert HasKey(s, key, key(s[i]));
    }
    MapTotalOfSumMap(s, key, f, ks);
    KeySumPartition(s, key, ks, f);
  }
}
