/**
 * The two list-splitting helpers used by the fetch planner and the device
 * repository: `splitToBatches` cuts a list into consecutive chunks of a fixed
 * size, `splitToBatchesEqual` deals a list round-robin into a fixed number of
 * shards. Their behaviour is the one the unit tests pin down.
 */
module Batches {

  // ---------------------------------------------------------------------------
  // splitToBatches: fixed-size consecutive chunks
  // ---------------------------------------------------------------------------

  /** Consecutive chunks of at most `size` elements; an empty list gives one empty chunk. */
  function SplitToBatches<T>(s: seq<T>, size: nat): (r: seq<seq<T>>)
    requires size > 0
    ensures |r| >= 1
    decreases |s|
  {
    if |s| <= size then [s] else [s[..size]] + SplitToBatches(s[size..], size)
  }

  function Flatten<T>(ss: seq<seq<T>>): seq<T>
  {
    if ss == [] then [] else ss[0] + Flatten(ss[1..])
  }

  /** Concatenating the chunks gives back the original list. */
  lemma {:induction false} SplitToBatchesFlatten<T>(s: seq<T>, size: nat)
    requires size > 0
    ensures Flatten(SplitToBatches(s, size)) == s
    decreases |s|
  {
    if |s| > size {
      var rest := SplitToBatches(s[size..], size);
      SplitToBatchesFlatten(s[size..], size);
      assert SplitToBatches(s, size) == [s[..size]] + rest;
      assert ([s[..size]] + rest)[1..] == rest;
      assert s[..size] + s[size..] == s;
    }
  }

  /**
   * Every chunk but the last holds exactly `size` elements; the last holds at
   * most `size`, and at least one when the list is not empty.
   */
  lemma {:induction false} SplitToBatchesSizes<T>(s: seq<T>, size: nat)
    requires size > 0
    ensures var r := SplitToBatches(s, size);
      && (forall i :: 0 <= i < |r| - 1 ==> |r[i]| == size)
      && |r[|r| - 1]| <= size
      && (s != [] ==> |r[|r| - 1]| >= 1)
      && |r| == if s == [] then 1 else (|s| - 1) / size + 1
    decreases |s|
  {
    if |s| > size {
      SplitToBatchesSizes(s[size..], size);
      var rest := SplitToBatches(s[size..], size);
      var r := SplitToBatches(s, size);
      assert r == [s[..size]] + rest;
      forall i | 0 <= i < |r| - 1 ensures |r[i]| == size {
        if i > 0 { assert r[i] == rest[i - 1]; }
      }
      DivStep(|s| - 1, size);
    }
  }

  /** When the chunk size covers a non-empty list, the list is one single chunk. */
  lemma SplitToBatchesSingle<T>(s: seq<T>, size: nat)
    requires size > 0 && 1 <= |s| <= size
    ensures SplitToBatches(s, size) == [s]
  {
  }

  // ---------------------------------------------------------------------------
  // splitToBatchesEqual: round-robin shards
  // ---------------------------------------------------------------------------

  /** The elements of `s` at indices j, j + k, j + 2k, ... in that order. */
  function Shard<T>(s: seq<T>, j: nat, k: nat): seq<T>
    requires k > 0
    decreases |s| - j
  {
    if j >= |s| then [] else [s[j]] + Shard(s, j + k, k)
  }

  /** Exactly `k` shards; the element at index i goes to shard i mod k. */
  function SplitToBatchesEqual<T>(s: seq<T>, k: nat): (r: seq<seq<T>>)
    requires k > 0
    ensures |r| == k
  {
    seq(k, j requires 0 <= j < k => Shard(s, j, k))
  }

  lemma {:induction false} MulAtLeast(d: nat, k: nat)
    requires d >= 1
    ensures d * k >= k
    decreases d
  {
    if d > 1 {
      MulAtLeast(d - 1, k);
      assert d * k == (d - 1) * k + k;
    }
  }

  /** Euclidean division is determined by any quotient/remainder pair. */
  lemma DivUnique(a: int, k: int, q: int, b: int)
    requires k > 0 && 0 <= b < k && a == q * k + b
    ensures a / k == q && a % k == b
  {
    var q', b' := a / k, a % k;
    assert a == q' * k + b';
    var d := q - q';
    assert d * k == q * k - q' * k;
    assert d * k == b' - b;
    if d >= 1 {
      MulAtLeast(d, k);
    }
  }

  lemma {:induction false} MulStrictlyIncreasing(m1: nat, m2: nat, k: nat)
    requires k > 0 && m1 < m2
    ensures m1 * k < m2 * k
    decreases m2
  {
    assert m2 * k == (m2 - 1) * k + k;
    if m1 < m2 - 1 {
      MulStrictlyIncreasing(m1, m2 - 1, k);
    }
  }

  lemma DivStep(x: int, k: int)
    requires k > 0 && x >= k
    ensures x / k == (x - k) / k + 1
  {
    var q, b := (x - k) / k, (x - k) % k;
    assert x - k == q * k + b;
    assert x == (q + 1) * k + b;
    DivUnique(x, k, q + 1, b);
  }

  /** Position m of shard j is the element at index j + m * k. */
  lemma {:induction false} ShardAt<T>(s: seq<T>, j: nat, k: nat, m: nat)
    requires k > 0 && m < |Shard(s, j, k)|
    ensures j + m * k < |s| && Shard(s, j, k)[m] == s[j + m * k]
    decreases m
  {
    if m > 0 {
      ShardAt(s, j + k, k, m - 1);
      assert j + k + (m - 1) * k == j + m * k;
    }
  }

  lemma {:induction false} ShardLength<T>(s: seq<T>, j: nat, k: nat)
    requires k > 0
    ensures |Shard(s, j, k)| == if j >= |s| then 0 else (|s| - j - 1) / k + 1
    decreases |s| - j
  {
    if j < |s| {
      ShardLength(s, j + k, k);
      if j + k < |s| {
        DivStep(|s| - j - 1, k);
      } else {
        DivUnique(|s| - j - 1, k, 0, |s| - j - 1);
      }
    }
  }

  lemma ShardCountBelowRemainder(n: int, j: int, k: int, q: int, rem: int)
    requires k > 0 && n == q * k + rem && 0 <= j < rem < k
    ensures (n - j - 1) / k == q
  {
    DivUnique(n - j - 1, k, q, rem - j - 1);
  }

  lemma ShardCountFromRemainder(n: int, j: int, k: int, q: int, rem: int)
    requires k > 0 && n == q * k + rem && 0 <= rem <= j < k && j < n
    ensures (n - j - 1) / k == q - 1
  {
    assert n - j - 1 == (q - 1) * k + (k + rem - j - 1);
    DivUnique(n - j - 1, k, q - 1, k + rem - j - 1);
  }

  /** Shard j of k holds |s| / k elements, plus one when j < |s| mod k. */
  lemma ShardSize<T>(s: seq<T>, j: nat, k: nat)
    requires 0 <= j < k
    ensures |Shard(s, j, k)| == |s| / k + (if j < |s| % k then 1 else 0)
  {
    ShardLength(s, j, k);
    var q, rem := |s| / k, |s| % k;
    if j >= |s| {
      DivUnique(|s|, k, 0, |s|);
    } else if j < rem {
      ShardCountBelowRemainder(|s|, j, k, q, rem);
    } else {
      ShardCountFromRemainder(|s|, j, k, q, rem);
    }
  }

  /** Index i sits at position i / k of its shard, which is long enough to hold it. */
  lemma PlacementArithmetic(n: int, i: int, k: int)
    requires k > 0 && 0 <= i < n
    ensures (n - i % k - 1) / k >= i / k
    ensures i % k + (i / k) * k == i
  {
    var j, m, c := i % k, i / k, n - 1 - i;
    assert i == m * k + j;
    assert c == (c / k) * k + c % k;
    assert (m + c / k) * k == m * k + (c / k) * k;
    DivUnique(n - j - 1, k, m + c / k, c % k);
  }

  /** The element at index i lands in shard i mod k, at position i / k. */
  lemma SplitToBatchesEqualPlacement<T>(s: seq<T>, k: nat, i: nat)
    requires k > 0 && i < |s|
    ensures var r := SplitToBatchesEqual(s, k);
      i / k < |r[i % k]| && r[i % k][i / k] == s[i]
  {
    var j, m := i % k, i / k;
    PlacementArithmetic(|s|, i, k);
    ShardLength(s, j, k);
    ShardAt(s, j, k, m);
  }

  /** Within a shard, elements keep their relative order from the input. */
  lemma SplitToBatchesEqualOrder<T>(s: seq<T>, k: nat, j: nat, m1: nat, m2: nat)
    requires 0 <= j < k && m1 < m2 < |SplitToBatchesEqual(s, k)[j]|
    ensures exists i1, i2 ::
      && 0 <= i1 < i2 < |s| && i1 % k == j && i2 % k == j
      && SplitToBatchesEqual(s, k)[j][m1] == s[i1] && SplitToBatchesEqual(s, k)[j][m2] == s[i2]
  {
    ShardAt(s, j, k, m1);
    ShardAt(s, j, k, m2);
    var i1, i2 := j + m1 * k, j + m2 * k;
    MulStrictlyIncreasing(m1, m2, k);
    DivUnique(i1, k, m1, j);
    DivUnique(i2, k, m2, j);
  }

  /** Shard sizes differ pairwise by at most one. */
  lemma SplitToBatchesEqualBalanced<T>(s: seq<T>, k: nat, j1: nat, j2: nat)
    requires j1 < k && j2 < k
    ensures var r := SplitToBatchesEqual(s, k);
      -1 <= |r[j1]| - |r[j2]| <= 1
  {
    ShardSize(s, j1, k);
    ShardSize(s, j2, k);
  }

  /** Sum of the sizes of a list of lists. */
  function TotalSize<T>(ss: seq<seq<T>>): nat
  {
    if ss == [] then 0 else TotalSize(ss[..|ss| - 1]) + |ss[|ss| - 1]|
  }

  /** The shard sizes add up to the size of the list. */
  lemma SplitToBatchesEqualTotal<T>(s: seq<T>, k: nat)
    requires k > 0
    ensures TotalSize(SplitToBatchesEqual(s, k)) == |s|
  {
    var r := SplitToBatchesEqual(s, k);
    var q, rem := |s| / k, |s| % k;
    var m := 0;
    while m < k
      invariant 0 <= m <= k
      invariant TotalSize(r[..m]) == m * q + (if m < rem then m else rem)
    {
      TotalSizeStep(r, m);
      ShardSize(s, m, k);
      CountStep(m, q, rem, |r[m]|);
      m := m + 1;
    }
    assert r[..k] == r;
  }

  lemma TotalSizeStep<T>(r: seq<seq<T>>, m: nat)
    requires m < |r|
    ensures TotalSize(r[..m + 1]) == TotalSize(r[..m]) + |r[m]|
  {
    assert r[..m + 1][..m] == r[..m];
  }

  /** The running total of the shard sizes, one shard further. */
  lemma CountStep(m: int, q: int, rem: int, size: int)
    requires size == q + (if m < rem then 1 else 0)
    ensures m * q + (if m < rem then m else rem) + size == (m + 1) * q + (if m + 1 < rem then m + 1 else rem)
  {
    assert (m + 1) * q == m * q + q;
  }

  lemma {:induction false} FlattenAppend<T>(a: seq<seq<T>>, b: seq<seq<T>>)
    ensures Flatten(a + b) == Flatten(a) + Flatten(b)
    decreases |a|
  {
    if a == [] {
      assert a + b == b;
    } else {
      FlattenAppend(a[1..], b);
      assert (a + b)[0] == a[0];
      assert (a + b)[1..] == a[1..] + b;
    }
  }

  /** Shards j0, j0 + 1, ..., j0 + k - 1 of stride k. */
  function ShardsFrom<T>(s: seq<T>, j0: nat, k: nat): (r: seq<seq<T>>)
    requires k > 0
    ensures |r| == k
  {
    seq(k, j requires 0 <= j < k => Shard(s, j0 + j, k))
  }

  lemma {:induction false} FlattenOfEmpties<T>(ss: seq<seq<T>>)
    requires forall i :: 0 <= i < |ss| ==> ss[i] == []
    ensures Flatten(ss) == []
    decreases |ss|
  {
    if ss != [] {
      FlattenOfEmpties(ss[1..]);
    }
  }

  /** Moving the window of shards one step drops shard j0 and appends shard j0 + k. */
  lemma ShardsFromStep<T>(s: seq<T>, j0: nat, k: nat)
    requires k > 0
    ensures ShardsFrom(s, j0 + 1, k) == ShardsFrom(s, j0, k)[1..] + [Shard(s, j0 + k, k)]
  {
    var a, b := ShardsFrom(s, j0, k), ShardsFrom(s, j0 + 1, k);
    forall i | 0 <= i < k - 1 ensures a[1..][i] == b[i] {
      assert a[1..][i] == Shard(s, j0 + (i + 1), k);
      assert b[i] == Shard(s, j0 + 1 + i, k);
    }
    assert b[k - 1] == Shard(s, j0 + 1 + (k - 1), k);
  }

  lemma ShardsFromExhausted<T>(s: seq<T>, j0: nat, k: nat)
    requires k > 0 && j0 >= |s|
    ensures Flatten(ShardsFrom(s, j0, k)) == []
  {
    var a := ShardsFrom(s, j0, k);
    forall i | 0 <= i < |a| ensures a[i] == [] {
      assert a[i] == Shard(s, j0 + i, k);
    }
    FlattenOfEmpties(a);
  }

  lemma ShardsFromSplit<T>(s: seq<T>, j0: nat, k: nat)
    requires k > 0 && j0 < |s|
    ensures var a := ShardsFrom(s, j0, k);
      multiset(Flatten(a)) == multiset([s[j0]]) + multiset(Flatten(ShardsFrom(s, j0 + 1, k)))
  {
    var a := ShardsFrom(s, j0, k);
    var tail := Shard(s, j0 + k, k);
    ShardsFromStep(s, j0, k);
    FlattenAppend(a[1..], [tail]);
    assert Flatten([tail]) == tail + Flatten([tail][1..]);
    assert a[0] == Shard(s, j0, k);
    assert Flatten(a) == a[0] + Flatten(a[1..]);
  }

  /** Shards j0 .. j0 + k - 1 together hold exactly the elements from index j0 on. */
  lemma {:induction false} ShardsFromPermutation<T>(s: seq<T>, j0: nat, k: nat)
    requires k > 0 && j0 <= |s|
    ensures multiset(Flatten(ShardsFrom(s, j0, k))) == multiset(s[j0..])
    decreases |s| - j0
  {
    if j0 == |s| {
      ShardsFromExhausted(s, j0, k);
    } else {
      ShardsFromSplit(s, j0, k);
      ShardsFromPermutation(s, j0 + 1, k);
      assert s[j0..] == [s[j0]] + s[j0 + 1..];
    }
  }

  /** Every element lands in exactly one shard: the shards are a permutation of the list. */
  lemma SplitToBatchesEqualPermutation<T>(s: seq<T>, k: nat)
    requires k > 0
    ensures multiset(Flatten(SplitToBatchesEqual(s, k))) == multiset(s)
  {
    ShardsFromPermutation(s, 0, k);
    assert ShardsFrom(s, 0, k) == SplitToBatchesEqual(s, k);
    assert s[0..] == s;
  }

  /** `filter { it.isNotEmpty() }` on a list of lists. */
  function NonEmpty<T>(ss: seq<seq<T>>): (r: seq<seq<T>>)
    ensures forall i :: 0 <= i < |r| ==> r[i] != []
  {
    if ss == [] then []
    else if ss[0] == [] then NonEmpty(ss[1..])
    else [ss[0]] + NonEmpty(ss[1..])
  }

  /** Dropping empty lists does not change the concatenation. */
  lemma {:induction false} FlattenNonEmpty<T>(ss: seq<seq<T>>)
    ensures Flatten(NonEmpty(ss)) == Flatten(ss)
    decreases |ss|
  {
    if ss != [] {
      FlattenNonEmpty(ss[1..]);
      if ss[0] != [] {
        assert ([ss[0]] + NonEmpty(ss[1..]))[1..] == NonEmpty(ss[1..]);
      }
    }
  }
}
