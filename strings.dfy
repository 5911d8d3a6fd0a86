/**
  C string helpers used by the parser, the detector and the generator.
  A C string is modelled as a `string` (a `seq<char>`) holding the characters
  before its terminating NUL, one `char` per byte: every length and limit
  counts bytes, as `strlen`, `strncpy` and pointer differences do.
 */
module Strings {
  import opened Wrappers

  /** `w` is a prefix of `s`. */
  predicate IsPrefix(w: string, s: string) {
    |w| <= |s| && s[..|w|] == w
  }

  /** `w` occurs in `s` starting at index `i`. */
  predicate OccursAt(s: string, w: string, i: nat) {
    i + |w| <= |s| && s[i..i + |w|] == w
  }

  lemma OccursAtTail(s: string, w: string, k: nat)
    requires 0 < |s|
    ensures OccursAt(s, w, k + 1) <==> OccursAt(s[1..], w, k)
  {
    if k + 1 + |w| <= |s| {
      assert s[k + 1..k + 1 + |w|] == s[1..][k..k + |w|];
    }
  }

  /**
    The index of the first occurrence of `w` in `s`, as `strstr(s, w)` finds it
    (an empty `w` is found at index 0); None when `w` does not occur.
   */
  function IndexOf(s: string, w: string): (r: Option<nat>)
    ensures r.Some? ==> r.value + |w| <= |s|
  {
    if IsPrefix(w, s) then Some(0)
    else if |s| == 0 then None
    else
      var rest := IndexOf(s[1..], w);
      if rest.Some? then Some(rest.value + 1) else None
  }

  /** `IndexOf` finds the first occurrence, and finds none only when there is none. */
  lemma {:induction false} IndexOfFirst(s: string, w: string)
    ensures IndexOf(s, w).Some? ==> OccursAt(s, w, IndexOf(s, w).value)
    ensures IndexOf(s, w).Some? ==> forall k: nat :: k < IndexOf(s, w).value ==> !OccursAt(s, w, k)
    ensures IndexOf(s, w).None? ==> forall k: nat :: !OccursAt(s, w, k)
  {
    if IsPrefix(w, s) {
      assert s[0..|w|] == s[..|w|];
    } else if |s| > 0 {
      IndexOfFirst(s[1..], w);
      assert !OccursAt(s, w, 0) by { if |w| <= |s| { assert s[0..|w|] == s[..|w|]; } }
      forall k: nat | 0 < k ensures OccursAt(s, w, k) <==> OccursAt(s[1..], w, k - 1) {
        OccursAtTail(s, w, k - 1);
      }
    }
  }

  /** `strstr(s, w) != NULL`. */
  predicate Contains(s: string, w: string) {
    IndexOf(s, w).Some?
  }

  /** `w` is contained in `s` exactly when it occurs at some index. */
  lemma ContainsIff(s: string, w: string)
    ensures Contains(s, w) <==> exists i: nat :: OccursAt(s, w, i)
  {
    IndexOfFirst(s, w);
  }

  /** An occurrence at any index witnesses containment. */
  lemma ContainsAt(s: string, w: string, i: nat)
    requires OccursAt(s, w, i)
    ensures Contains(s, w)
  {
    IndexOfFirst(s, w);
  }

  /** `strchr(s, c)`: the first `c` in `s`, or None when `s` has none. */
  lemma CharIndex(s: string, c: char)
    ensures IndexOf(s, [c]).Some? ==> s[IndexOf(s, [c]).value] == c
    ensures IndexOf(s, [c]).Some? ==> forall k :: 0 <= k < IndexOf(s, [c]).value ==> s[k] != c
    ensures IndexOf(s, [c]).None? <==> c !in s
  {
    IndexOfFirst(s, [c]);
    forall k: nat | k < |s| ensures OccursAt(s, [c], k) <==> s[k] == c {
      assert s[k..k + 1] == [s[k]];
    }
  }

  /** A character found at `i` and nowhere before is what `strchr` finds. */
  lemma FirstCharAt(s: string, c: char, i: nat)
    requires i < |s| && s[i] == c && forall k :: 0 <= k < i ==> s[k] != c
    ensures IndexOf(s, [c]) == Some(i)
  {
    CharIndex(s, c);
  }

  /** A word holding a character that `s` lacks is not contained in `s`. */
  lemma NotContainsMissingChar(s: string, w: string, j: nat)
    requires j < |w| && w[j] !in s
    ensures !Contains(s, w)
  {
    IndexOfFirst(s, w);
  }

  /**
    A word that is not a prefix of `[c] + rest`, and whose first character does
    not occur in `rest`, is not contained in `[c] + rest`.
   */
  lemma NotContainsOffStart(c: char, rest: string, w: string)
    requires 0 < |w| && w[0] !in rest && !IsPrefix(w, [c] + rest)
    ensures !Contains([c] + rest, w)
  {
    var s := [c] + rest;
    forall k: nat ensures !OccursAt(s, w, k) {
      if k + |w| <= |s| {
        if k == 0 {
          assert s[0..|w|] == s[..|w|];
        } else {
          assert s[k..k + |w|][0] == rest[k - 1];
        }
      }
    }
    ContainsIff(s, w);
  }

  /**
    What `strncpy(dst, s, n)` leaves in a buffer whose byte `n` is NUL:
    at most the first `n` characters of `s`.
   */
  function Truncate(s: string, n: nat): (r: string)
    ensures |r| <= n && IsPrefix(r, s)
    ensures |s| <= n ==> r == s
    ensures |s| > n ==> |r| == n
  {
    if |s| <= n then s else s[..n]
  }

  /** `isspace` in the C locale. */
  predicate IsSpace(c: char) {
    c == ' ' || c == '\t' || c == '\n' || c == '\U{000B}' || c == '\U{000C}' || c == '\r'
  }

  /** `isdigit`. */
  predicate IsDigit(c: char) {
    '0' <= c <= '9'
  }

  /** The first character of `s` is `-` (`s[0] == '-'` in C; the NUL of an empty string is not). */
  predicate StartsWithDash(s: string) {
    |s| > 0 && s[0] == '-'
  }
}
