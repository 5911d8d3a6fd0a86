/**
  The fixed-capacity arrays of the analyzer context (`patterns[MAX_PATTERNS]`,
  `recommendations[MAX_RECOMMENDATIONS]`) seen as sequences: an insertion into
  a full array is silently dropped.
 */
module Bounded {

  function Min(a: int, b: int): int {
    if a <= b then a else b
  }

  /** One insertion: appended while the array has room, dropped once it is full. */
  function Append<T>(s: seq<T>, x: T, cap: nat): seq<T> {
    if |s| < cap then s + [x] else s
  }

  /** Insertions of `xs`, in order, one at a time. */
  function AppendAll<T>(s: seq<T>, xs: seq<T>, cap: nat): seq<T>
    decreases |xs|
  {
    if xs == [] then s else AppendAll(Append(s, xs[0], cap), xs[1..], cap)
  }

  /**
    Inserting `xs` keeps the elements already present and adds the longest
    prefix of `xs` that fits; nothing is reordered or overwritten.
   */
  lemma {:induction false} AppendAllKeepsPrefix<T>(s: seq<T>, xs: seq<T>, cap: nat)
    ensures AppendAll(s, xs, cap) == if |s| >= cap then s else s + xs[..Min(|xs|, cap - |s|)]
    decreases |xs|
  {
    if xs != [] {
      AppendAllKeepsPrefix(Append(s, xs[0], cap), xs[1..], cap);
      if |s| < cap {
        var k := Min(|xs[1..]|, cap - |s| - 1);
        assert (s + [xs[0]]) + xs[1..][..k] == s + xs[..k + 1];
      }
    }
  }

  /** Two batches of insertions are one batch of their concatenation. */
  lemma {:induction false} AppendAllConcat<T>(s: seq<T>, xs: seq<T>, ys: seq<T>, cap: nat)
    ensures AppendAll(AppendAll(s, xs, cap), ys, cap) == AppendAll(s, xs + ys, cap)
    decreases |xs|
  {
    if xs != [] {
      assert (xs + ys)[0] == xs[0];
      assert (xs + ys)[1..] == xs[1..] + ys;
      AppendAllConcat(Append(s, xs[0], cap), xs[1..], ys, cap);
    } else {
      assert xs + ys == ys;
    }
  }

  /** Inserting two, three or four elements is inserting them one at a time. */
  lemma AppendAllTwo<T>(s: seq<T>, x: T, y: T, cap: nat)
    ensures AppendAll(s, [x, y], cap) == Append(Append(s, x, cap), y, cap)
  {
    var t := Append(s, x, cap);
    assert [x, y][1..] == [y] && [y][1..] == [];
    assert AppendAll(t, [y], cap) == AppendAll(Append(t, y, cap), [], cap);
  }

  lemma AppendAllThree<T>(s: seq<T>, x: T, y: T, z: T, cap: nat)
    ensures AppendAll(s, [x, y, z], cap) == Append(Append(Append(s, x, cap), y, cap), z, cap)
  {
    assert [x, y, z][1..] == [y, z];
    AppendAllTwo(Append(s, x, cap), y, z, cap);
  }

  lemma AppendAllFour<T>(s: seq<T>, w: T, x: T, y: T, z: T, cap: nat)
    ensures AppendAll(s, [w, x, y, z], cap) == Append(Append(Append(Append(s, w, cap), x, cap), y, cap), z, cap)
  {
    assert [w, x, y, z][1..] == [x, y, z];
    AppendAllThree(Append(s, w, cap), x, y, z, cap);
  }

  /** Appending a list and then one more element is appending the longer list. */
  lemma AppendAllSnoc<T>(s: seq<T>, xs: seq<T>, x: T, cap: nat)
    ensures AppendAll(s, xs + [x], cap) == Append(AppendAll(s, xs, cap), x, cap)
  {
    AppendAllConcat(s, xs, [x], cap);
    assert [x][1..] == [];
  }

  /** Where the capacity falls: everything fits, nothing fits, and the resulting length. */
  lemma AppendAllBounds<T>(s: seq<T>, xs: seq<T>, cap: nat)
    ensures |s| + |xs| <= cap ==> AppendAll(s, xs, cap) == s + xs
    ensures |s| >= cap ==> AppendAll(s, xs, cap) == s
    ensures |AppendAll(s, xs, cap)| == if |s| >= cap then |s| else Min(|s| + |xs|, cap)
  {
    AppendAllKeepsPrefix(s, xs, cap);
    assert xs[..|xs|] == xs;
  }

  /** A list that fits in an empty buffer is appended whole. */
  lemma AppendAllFits<T>(xs: seq<T>, cap: nat)
    requires |xs| <= cap
    ensures AppendAll([], xs, cap) == xs
  {
    AppendAllKeepsPrefix([], xs, cap);
    assert xs[..|xs|] == xs;
  }
}
