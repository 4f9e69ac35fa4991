/**
 * Facts about concatenation and slicing that hold for sequences of any element type. Stating
 * them once, over opaque elements, keeps the proofs about lists of lines from comparing the
 * lines character by character.
 */
module Sequences {
  lemma AppendAssoc<T>(a: seq<T>, b: seq<T>, c: seq<T>)
    ensures (a + b) + c == a + (b + c)
  {
  }

  lemma PrefixOfConcat<T>(a: seq<T>, b: seq<T>)
    ensures (a + b)[..|a|] == a
  {
  }

  lemma SuffixOfConcat<T>(a: seq<T>, b: seq<T>)
    ensures (a + b)[|a|..] == b
  {
  }

  lemma SliceOfConcat<T>(a: seq<T>, b: seq<T>, i: nat, j: nat)
    requires i <= j <= |b|
    ensures (a + b)[|a| + i..|a| + j] == b[i..j]
  {
  }

  /** A single element, two blocks and a single element, laid end to end. */
  lemma FramedShape<T>(x: T, m: seq<T>, n: seq<T>, y: T)
    ensures var s := [x] + m + n + [y];
      && |s| == 2 + |m| + |n|
      && s[0] == x
      && s[|s| - 1] == y
      && (forall k | 0 <= k < |m| :: s[1 + k] == m[k])
  {
  }

  /** Where the odd-numbered parts of a seven-part concatenation sit. */
  lemma Slices7<T>(a: seq<T>, b: seq<T>, c: seq<T>, d: seq<T>, e: seq<T>, f: seq<T>, g: seq<T>)
    ensures var s := a + b + c + d + e + f + g;
      && |s| == |a| + |b| + |c| + |d| + |e| + |f| + |g|
      && s[..|a|] == a
      && s[|a| + |b|..|a| + |b| + |c|] == c
      && s[|a| + |b| + |c| + |d|..|a| + |b| + |c| + |d| + |e|] == e
      && s[|s| - |g|..] == g
  {
  }

  /** Where the parts of a six-part concatenation sit. */
  lemma Slices6<T>(a: seq<T>, b: seq<T>, c: seq<T>, d: seq<T>, e: seq<T>, f: seq<T>)
    ensures var s := a + b + c + d + e + f;
      && |s| == |a| + |b| + |c| + |d| + |e| + |f|
      && s[..|a|] == a
      && s[|a|..|a| + |b|] == b
      && s[|a| + |b| + |c|..|a| + |b| + |c| + |d|] == d
      && s[|a|..] == b + c + d + e + f
      && s[|s| - |f|..] == f
  {
  }

  lemma SuffixOfPrefix<T>(s: seq<T>, j: nat, k: nat)
    requires k <= j <= |s|
    ensures s[..j][k..] == s[k..j]
  {
  }

  lemma SuffixOfSlice<T>(s: seq<T>, i: nat, j: nat, k: nat)
    requires i <= j <= |s| && k <= j - i
    ensures s[i..j][k..] == s[i + k..j]
  {
  }

  /** Where the odd-numbered parts of a five-part concatenation sit. */
  lemma Slices5<T>(a: seq<T>, b: seq<T>, c: seq<T>, d: seq<T>, e: seq<T>)
    ensures var s := a + b + c + d + e;
      && |s| == |a| + |b| + |c| + |d| + |e|
      && s[..|a|] == a
      && s[|a| + |b|..|a| + |b| + |c|] == c
      && s[|a| + |b| + |c| + |d|..] == e
  {
  }

  /** Where the outer parts of a three-part concatenation sit. */
  lemma Slices3<T>(a: seq<T>, b: seq<T>, c: seq<T>)
    ensures var s := a + b + c;
      && |s| == |a| + |b| + |c|
      && s[..|a|] == a
      && s[|a| + |b|..] == c
  {
  }

  /** `f` applied to every element of `s`, in order, built from the end as the loops that print lists are. */
  function MapSeq<A, B>(f: A -> B, s: seq<A>): (r: seq<B>)
    ensures |r| == |s|
  {
    if |s| == 0 then [] else MapSeq(f, s[..|s| - 1]) + [f(s[|s| - 1])]
  }

  /** Element `k` of the mapped sequence is `f` of element `k`. */
  lemma {:induction false} MapSeqAt<A, B>(f: A -> B, s: seq<A>, k: nat)
    requires k < |s|
    ensures MapSeq(f, s)[k] == f(s[k])
    decreases |s|
  {
    var init := s[..|s| - 1];
    if k < |init| {
      MapSeqAt(f, init, k);
      assert init[k] == s[k];
    }
  }

  /** Mapping one more element appends its image. */
  lemma MapSeqStep<A, B>(f: A -> B, s: seq<A>, j: nat)
    requires j < |s|
    ensures MapSeq(f, s[..j + 1]) == MapSeq(f, s[..j]) + [f(s[j])]
  {
    assert s[..j + 1][..j] == s[..j];
  }

  /** A block followed by two copies of one element ends `a + (p + d + [e] + [e])`. */
  lemma EndsWithBlockAndPair<T>(a: seq<T>, p: seq<T>, d: seq<T>, e: T)
    ensures var s := a + (p + d + [e] + [e]);
      && |d| + 2 <= |s|
      && s[|s| - (|d| + 2)..] == d + [e, e]
  {
    var s := a + (p + d + [e] + [e]);
    assert s == (a + p) + (d + [e, e]);
  }

  /** In `s == a + (p + m + c)`, the part `m` sits right after `a + p` and is followed by `c`. */
  lemma Placed<T>(s: seq<T>, a: seq<T>, p: seq<T>, m: seq<T>, c: seq<T>)
    requires s == a + (p + m + c)
    ensures |s| == |a| + |p| + |m| + |c|
    ensures s[|a| + |p|..|a| + |p| + |m|] == m
    ensures forall i | 0 <= i < |p| :: s[|a| + i] == p[i]
    ensures forall i | 0 <= i < |c| :: s[|a| + |p| + |m| + i] == c[i]
  {
  }

  /**
   * In `s == a + (p + m + c)` where `p` holds `x` at index 1 and `c` starts with `y`: `x` is at
   * `|a| + 1`, `m` right after `a + p`, and `y` right after `m`.
   */
  lemma PlacedBetween<T>(s: seq<T>, a: seq<T>, p: seq<T>, m: seq<T>, c: seq<T>, x: T, y: T)
    requires s == a + (p + m + c)
    requires |p| >= 2 && p[1] == x && |c| > 0 && c[0] == y
    ensures var start := |a| + |p|;
      && start + |m| < |s|
      && s[|a| + 1] == x
      && s[start..start + |m|] == m
      && s[start + |m|] == y
  {
    Placed(s, a, p, m, c);
  }
}
