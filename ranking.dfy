/**
  Stable descending ranking by an integer key, the order both in-place sorts of
  the analyzer produce (patterns by frequency, recommendations by priority).

  `out` is a stable ranking of `input` when it is sorted by non-increasing key and,
  for every key value, the elements carrying that key appear in `out` in the
  same order as in `input`. That determines `out` uniquely and makes it a
  permutation of `input`.
 */
module Ranking {

  predicate SortedDesc<T>(s: seq<T>, key: T -> int) {
    forall i, j :: 0 <= i < j < |s| ==> key(s[i]) >= key(s[j])
  }

  /** The elements of `s` whose key is `k`, in their order in `s`. */
  function WithKey<T>(s: seq<T>, key: T -> int, k: int): (r: seq<T>)
    ensures |r| <= |s|
    ensures forall x :: x in r ==> x in s && key(x) == k
  {
    if s == [] then []
    else (if key(s[0]) == k then [s[0]] else []) + WithKey(s[1..], key, k)
  }

  ghost predicate StableRanking<T>(out: seq<T>, input: seq<T>, key: T -> int) {
    && SortedDesc(out, key)
    && forall k :: WithKey(out, key, k) == WithKey(input, key, k)
  }

  lemma {:induction false} WithKeyConcat<T>(a: seq<T>, b: seq<T>, key: T -> int, k: int)
    ensures WithKey(a + b, key, k) == WithKey(a, key, k) + WithKey(b, key, k)
  {
    if a != [] {
      assert (a + b)[1..] == a[1..] + b;
      WithKeyConcat(a[1..], b, key, k);
    } else {
      assert a + b == b;
    }
  }

  /** Every element shows up among the elements of its own key. */
  lemma {:induction false} WithKeyHasMember<T>(s: seq<T>, key: T -> int, i: nat)
    requires i < |s|
    ensures s[i] in WithKey(s, key, key(s[i]))
  {
    if i > 0 {
      WithKeyHasMember(s[1..], key, i - 1);
    }
  }

  function SwapAt<T>(s: seq<T>, j: nat): (r: seq<T>)
    requires j + 1 < |s|
    ensures |r| == |s| && r[j] == s[j + 1] && r[j + 1] == s[j]
    ensures forall i :: 0 <= i < |s| && i != j && i != j + 1 ==> r[i] == s[i]
  {
    s[..j] + [s[j + 1], s[j]] + s[j + 2..]
  }

  /** Exchanging two neighbours with different keys keeps the order of the elements of key `k`. */
  lemma SwapKeepsOneKeyOrder<T>(s: seq<T>, j: nat, key: T -> int, k: int)
    requires j + 1 < |s|
    requires key(s[j]) != key(s[j + 1])
    ensures WithKey(SwapAt(s, j), key, k) == WithKey(s, key, k)
  {
    var pre, x, y, post := s[..j], s[j], s[j + 1], s[j + 2..];
    assert s == pre + [x, y] + post;
    assert SwapAt(s, j) == pre + [y, x] + post;
    WithKeyConcat(pre + [x, y], post, key, k);
    WithKeyConcat(pre, [x, y], key, k);
    WithKeyConcat(pre + [y, x], post, key, k);
    WithKeyConcat(pre, [y, x], key, k);
    assert [x, y][1..] == [y] && [y, x][1..] == [x];
    assert WithKey([x, y], key, k) == WithKey([y, x], key, k);
  }

  /** Exchanging two neighbours with different keys changes no per-key order. */
  lemma SwapKeepsKeyOrder<T>(s: seq<T>, j: nat, key: T -> int)
    requires j + 1 < |s|
    requires key(s[j]) != key(s[j + 1])
    ensures forall k :: WithKey(SwapAt(s, j), key, k) == WithKey(s, key, k)
  {
    forall k ensures WithKey(SwapAt(s, j), key, k) == WithKey(s, key, k) {
      SwapKeepsOneKeyOrder(s, j, key, k);
    }
  }

  /** The number of copies of `x` in `s` is its number of copies among the elements of its key. */
  lemma {:induction false} CountWithinKey<T>(s: seq<T>, key: T -> int, x: T)
    ensures multiset(s)[x] == multiset(WithKey(s, key, key(x)))[x]
  {
    if s != [] {
      CountWithinKey(s[1..], key, x);
      assert s == [s[0]] + s[1..];
      assert multiset(s) == multiset([s[0]]) + multiset(s[1..]);
      var head := if key(s[0]) == key(x) then [s[0]] else [];
      assert WithKey(s, key, key(x)) == head + WithKey(s[1..], key, key(x));
      assert multiset(WithKey(s, key, key(x))) == multiset(head) + multiset(WithKey(s[1..], key, key(x)));
    }
  }

  /** A stable ranking is a permutation. */
  lemma RankingIsPermutation<T>(out: seq<T>, input: seq<T>, key: T -> int)
    requires StableRanking(out, input, key)
    ensures multiset(out) == multiset(input)
    ensures |out| == |input|
  {
    forall x ensures multiset(out)[x] == multiset(input)[x] {
      CountWithinKey(out, key, x);
      CountWithinKey(input, key, x);
    }
    assert multiset(out) == multiset(input);
    assert |multiset(out)| == |out| && |multiset(input)| == |input|;
  }

  /** An element of the per-key order of `s` for key `k` is an element of `s` with key `k`. */
  lemma FromKeyOrder<T>(s: seq<T>, key: T -> int, k: int, x: T)
    requires x in WithKey(s, key, k)
    ensures exists i :: 0 <= i < |s| && s[i] == x && key(x) == k
  {
  }

  /** Sorted sequences with the same per-key orders start with the same element. */
  lemma SameHead<T>(a: seq<T>, b: seq<T>, key: T -> int)
    requires a != [] && b != []
    requires SortedDesc(a, key) && SortedDesc(b, key)
    requires WithKey(a, key, key(a[0])) == WithKey(b, key, key(a[0]))
    requires WithKey(a, key, key(b[0])) == WithKey(b, key, key(b[0]))
    ensures key(a[0]) == key(b[0]) && a[0] == b[0]
  {
    var ka, kb := key(a[0]), key(b[0]);
    WithKeyHasMember(a, key, 0);
    WithKeyHasMember(b, key, 0);
    FromKeyOrder(b, key, ka, a[0]);
    FromKeyOrder(a, key, kb, b[0]);
    assert WithKey(a, key, ka)[0] == a[0];
    assert WithKey(b, key, kb)[0] == b[0];
  }

  /** Dropping equal heads keeps the per-key orders equal. */
  lemma SameTailKeyOrder<T>(a: seq<T>, b: seq<T>, key: T -> int, k: int)
    requires a != [] && b != [] && a[0] == b[0]
    requires WithKey(a, key, k) == WithKey(b, key, k)
    ensures WithKey(a[1..], key, k) == WithKey(b[1..], key, k)
  {
    var h := if key(a[0]) == k then [a[0]] else [];
    assert WithKey(a, key, k) == h + WithKey(a[1..], key, k);
    assert WithKey(b, key, k) == h + WithKey(b[1..], key, k);
    assert WithKey(a[1..], key, k) == (h + WithKey(a[1..], key, k))[|h|..];
    assert WithKey(b[1..], key, k) == (h + WithKey(b[1..], key, k))[|h|..];
  }

  /** Two sorted sequences with the same per-key orders are equal. */
  lemma {:induction false} SortedDeterminedByKeyOrder<T>(a: seq<T>, b: seq<T>, key: T -> int)
    requires SortedDesc(a, key) && SortedDesc(b, key)
    requires forall k :: WithKey(a, key, k) == WithKey(b, key, k)
    ensures a == b
    decreases |a|
  {
    if a == [] || b == [] {
      if b != [] {
        WithKeyHasMember(b, key, 0);
      } else if a != [] {
        WithKeyHasMember(a, key, 0);
      }
    } else {
      SameHead(a, b, key);
      forall k ensures WithKey(a[1..], key, k) == WithKey(b[1..], key, k) {
        SameTailKeyOrder(a, b, key, k);
      }
      SortedDeterminedByKeyOrder(a[1..], b[1..], key);
      assert a == [a[0]] + a[1..] && b == [b[0]] + b[1..];
    }
  }

  /** The stable ranking of a sequence is unique. */
  lemma RankingIsUnique<T>(a: seq<T>, b: seq<T>, input: seq<T>, key: T -> int)
    requires StableRanking(a, input, key) && StableRanking(b, input, key)
    ensures a == b
  {
    SortedDeterminedByKeyOrder(a, b, key);
  }

  /** The slots of `s` from `from` on hold keys no greater than any slot before them. */
  ghost predicate Settled<T>(s: seq<T>, from: int, key: T -> int) {
    forall k, l :: 0 <= k < l < |s| && from <= l ==> key(s[k]) >= key(s[l])
  }

  /**
    What holds at neighbour `j` of a pass that sinks the smallest key of
    `s[..m + 1]` to slot `m`: the slots after `m` are settled, slot `j` holds
    the smallest key seen so far, and once `j` is past `m` that smallest key
    sits at `m`.
   */
  ghost predicate PassInvariant<T>(s: seq<T>, m: nat, j: nat, key: T -> int) {
    && m < |s| && j < |s|
    && Settled(s, m + 1, key)
    && (forall k :: 0 <= k < j ==> key(s[k]) >= key(s[j]))
    && (j > m ==> forall k :: 0 <= k < m ==> key(s[k]) >= key(s[m]))
  }

  /**
    One compare-and-exchange step of a pass keeps its invariant; an exchange
    only happens before slot `m`.
   */
  lemma PassStep<T>(s: seq<T>, m: nat, j: nat, key: T -> int)
    requires PassInvariant(s, m, j, key) && j + 1 < |s|
    ensures key(s[j]) < key(s[j + 1]) ==> j < m && PassInvariant(SwapAt(s, j), m, j + 1, key)
    ensures key(s[j]) >= key(s[j + 1]) ==> PassInvariant(s, m, j + 1, key)
  {
    if key(s[j]) < key(s[j + 1]) {
      var t := SwapAt(s, j);
      forall k, l | 0 <= k < l < |t| && m + 1 <= l ensures key(t[k]) >= key(t[l]) {
        assert t[l] == s[l];
      }
    }
  }

  /** A pass that has reached slot `m` has settled the slots from `m` on. */
  lemma PassDone<T>(s: seq<T>, m: nat, j: nat, key: T -> int)
    requires PassInvariant(s, m, j, key) && m <= j
    ensures Settled(s, m, key)
  {
  }

  /** Exchanges neighbours j and j+1 of `a` whose keys are out of order; the order of each key class is kept. */
  method Exchange<T>(a: array<T>, n: nat, j: nat, key: T -> int)
    requires n <= a.Length && j + 1 < n
    requires key(a[j]) < key(a[j + 1])
    modifies a
    ensures a[..n] == SwapAt(old(a[..n]), j)
    ensures a[n..] == old(a[n..])
    ensures forall k :: WithKey(a[..n], key, k) == WithKey(old(a[..n]), key, k)
  {
    ghost var before := a[..n];
    a[j], a[j + 1] := a[j + 1], a[j];
    SwapKeepsKeyOrder(before, j, key);
    assert a[..n] == SwapAt(before, j);
  }
}
