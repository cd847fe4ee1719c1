/** Sequence helpers shared by the delivery model: concatenation of metric
    lines into the bytes that travel on the connection, and the
    "order-preserving subsequence" relation used to state that the worker
    may lose lines but never reorders the ones that survive. */
module Sequences {

  /** The bytes of a run of lines written back to back. */
  function Concat(lines: seq<string>): string
  {
    if lines == [] then "" else lines[0] + Concat(lines[1..])
  }

  /** Writing two runs of lines one after the other yields the bytes of both. */
  lemma {:induction false} ConcatAppend(a: seq<string>, b: seq<string>)
    ensures Concat(a + b) == Concat(a) + Concat(b)
  {
    if a == [] {
      assert a + b == b;
    } else {
      assert (a + b)[1..] == a[1..] + b;
      ConcatAppend(a[1..], b);
    }
  }

  /** Writing one line after a run appends exactly that line's bytes. */
  lemma ConcatSnoc(a: seq<string>, line: string)
    ensures Concat(a + [line]) == Concat(a) + line
  {
    ConcatAppend(a, [line]);
    assert Concat([line]) == line + Concat([]);
  }

  /** `xs` can be obtained from `ys` by deleting elements, without reordering. */
  predicate IsSubsequence<T(==)>(xs: seq<T>, ys: seq<T>)
    decreases |ys|
  {
    if xs == [] then true
    else if ys == [] then false
    else (xs[0] == ys[0] && IsSubsequence(xs[1..], ys[1..])) || IsSubsequence(xs, ys[1..])
  }

  /** A subsequence is never longer than the sequence it was taken from. */
  lemma {:induction false} SubsequenceLength<T>(xs: seq<T>, ys: seq<T>)
    requires IsSubsequence(xs, ys)
    ensures |xs| <= |ys|
  {
    if xs != [] {
      if xs[0] == ys[0] && IsSubsequence(xs[1..], ys[1..]) {
        SubsequenceLength(xs[1..], ys[1..]);
      } else {
        SubsequenceLength(xs, ys[1..]);
      }
    }
  }

  /** Every sequence is a subsequence of itself. */
  lemma {:induction false} SubsequenceRefl<T>(xs: seq<T>)
    ensures IsSubsequence(xs, xs)
  {
    if xs != [] {
      SubsequenceRefl(xs[1..]);
    }
  }

  /** Appending to the larger sequence keeps a subsequence a subsequence. */
  lemma {:induction false} SubsequenceExtendRight<T>(xs: seq<T>, ys: seq<T>, zs: seq<T>)
    requires IsSubsequence(xs, ys)
    ensures IsSubsequence(xs, ys + zs)
  {
    if xs != [] {
      assert (ys + zs)[0] == ys[0];
      assert (ys + zs)[1..] == ys[1..] + zs;
      if xs[0] == ys[0] && IsSubsequence(xs[1..], ys[1..]) {
        SubsequenceExtendRight(xs[1..], ys[1..], zs);
      } else {
        SubsequenceExtendRight(xs, ys[1..], zs);
      }
    }
  }

  /** Appending the same element to both sides keeps a subsequence a subsequence. */
  lemma {:induction false} SubsequenceSnocBoth<T>(xs: seq<T>, ys: seq<T>, y: T)
    requires IsSubsequence(xs, ys)
    ensures IsSubsequence(xs + [y], ys + [y])
  {
    if ys == [] {
      assert xs == [];
      assert IsSubsequence(([] + [y])[1..], ([] + [y])[1..]);
    } else {
      assert (ys + [y])[0] == ys[0];
      assert (ys + [y])[1..] == ys[1..] + [y];
      if xs == [] {
        SubsequenceSnocBoth(xs, ys[1..], y);
        assert xs + [y] == [y];
      } else if xs[0] == ys[0] && IsSubsequence(xs[1..], ys[1..]) {
        SubsequenceSnocBoth(xs[1..], ys[1..], y);
        assert (xs + [y])[0] == xs[0];
        assert (xs + [y])[1..] == xs[1..] + [y];
      } else {
        SubsequenceSnocBoth(xs, ys[1..], y);
      }
    }
  }

  /** The subsequence relation is transitive. */
  lemma {:induction false} SubsequenceTrans<T>(xs: seq<T>, ys: seq<T>, zs: seq<T>)
    requires IsSubsequence(xs, ys) && IsSubsequence(ys, zs)
    ensures IsSubsequence(xs, zs)
    decreases |zs|
  {
    if xs != [] {
      assert ys != [] && zs != [];
      if ys[0] == zs[0] && IsSubsequence(ys[1..], zs[1..]) {
        if xs[0] == ys[0] && IsSubsequence(xs[1..], ys[1..]) {
          SubsequenceTrans(xs[1..], ys[1..], zs[1..]);
        } else {
          SubsequenceTrans(xs, ys[1..], zs[1..]);
        }
      } else {
        SubsequenceTrans(xs, ys, zs[1..]);
      }
    }
  }

  /** Dropping a suffix from a subsequence leaves a subsequence. */
  lemma SubsequenceDropSuffix<T>(xs: seq<T>, extra: seq<T>, ys: seq<T>)
    requires IsSubsequence(xs + extra, ys)
    ensures IsSubsequence(xs, ys)
  {
    SubsequenceRefl(xs);
    SubsequenceExtendRight(xs, xs, extra);
    SubsequenceTrans(xs, xs + extra, ys);
  }
}
