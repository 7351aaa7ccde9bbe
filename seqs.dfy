/**
 * `Array.prototype.filter` and the facts the pages rely on: the result
 * keeps exactly the elements that pass, in their original order, and
 * two filters commute.
 */
module Seqs {

  /** `xs.filter(p)`. */
  function Filter<T(!new)>(xs: seq<T>, p: T -> bool): (r: seq<T>)
    ensures |r| <= |xs|
    ensures forall x :: x in r <==> x in xs && p(x)
    ensures forall i :: 0 <= i < |r| ==> p(r[i])
  {
    if xs == [] then [] else (if p(xs[0]) then [xs[0]] else []) + Filter(xs[1..], p)
  }

  /** `sub` is `xs` with some elements left out, the rest kept in order. */
  predicate IsSubsequence<T(==,!new)>(sub: seq<T>, xs: seq<T>)
    decreases |xs|
  {
    sub == []
    || (xs != [] && ((sub[0] == xs[0] && IsSubsequence(sub[1..], xs[1..])) || IsSubsequence(sub, xs[1..])))
  }

  /** A filter preserves relative order. */
  lemma {:induction false} FilterIsSubsequence<T(!new)>(xs: seq<T>, p: T -> bool)
    ensures IsSubsequence(Filter(xs, p), xs)
  {
    if xs != [] {
      FilterIsSubsequence(xs[1..], p);
      var rest := Filter(xs[1..], p);
      if p(xs[0]) {
        assert Filter(xs, p) == [xs[0]] + rest;
        assert ([xs[0]] + rest)[1..] == rest;
      } else {
        assert Filter(xs, p) == rest;
      }
    }
  }

  /** Every sequence is a subsequence of itself. */
  lemma {:induction false} SubsequenceReflexive<T(!new)>(xs: seq<T>)
    ensures IsSubsequence(xs, xs)
  {
    if xs != [] {
      SubsequenceReflexive(xs[1..]);
    }
  }

  /** A subsequence of a subsequence is a subsequence. */
  lemma {:induction false} SubsequenceTransitive<T(!new)>(a: seq<T>, b: seq<T>, c: seq<T>)
    requires IsSubsequence(a, b) && IsSubsequence(b, c)
    ensures IsSubsequence(a, c)
    decreases |c|
  {
    if a != [] {
      if IsSubsequence(b, c[1..]) {
        SubsequenceTransitive(a, b, c[1..]);
      } else if a[0] == b[0] && IsSubsequence(a[1..], b[1..]) {
        SubsequenceTransitive(a[1..], b[1..], c[1..]);
      } else {
        SubsequenceTransitive(a, b[1..], c[1..]);
      }
    }
  }

  /** Filtering a concatenation filters each part. */
  lemma {:induction false} FilterAppend<T(!new)>(xs: seq<T>, ys: seq<T>, p: T -> bool)
    ensures Filter(xs + ys, p) == Filter(xs, p) + Filter(ys, p)
  {
    if xs == [] {
      assert xs + ys == ys;
    } else {
      assert (xs + ys)[0] == xs[0];
      assert (xs + ys)[1..] == xs[1..] + ys;
      FilterAppend(xs[1..], ys, p);
    }
  }

  /** When every element passes, the filter keeps the whole sequence. */
  lemma {:induction false} FilterKeepsAll<T(!new)>(xs: seq<T>, p: T -> bool)
    requires forall i :: 0 <= i < |xs| ==> p(xs[i])
    ensures Filter(xs, p) == xs
  {
    if xs != [] {
      FilterKeepsAll(xs[1..], p);
      assert [xs[0]] + xs[1..] == xs;
    }
  }

  /** When no element passes, the filter is empty. */
  lemma {:induction false} FilterDropsAll<T(!new)>(xs: seq<T>, p: T -> bool)
    requires forall i :: 0 <= i < |xs| ==> !p(xs[i])
    ensures Filter(xs, p) == []
  {
    if xs != [] {
      FilterDropsAll(xs[1..], p);
    }
  }

  /** Filtering twice with the same test is filtering once. */
  lemma FilterIdempotent<T(!new)>(xs: seq<T>, p: T -> bool)
    ensures Filter(Filter(xs, p), p) == Filter(xs, p)
  {
    FilterKeepsAll(Filter(xs, p), p);
  }

  /** Two filters give the same result in either order. */
  lemma {:induction false} FilterCommutes<T(!new)>(xs: seq<T>, p: T -> bool, q: T -> bool)
    ensures Filter(Filter(xs, p), q) == Filter(Filter(xs, q), p)
  {
    if xs != [] {
      var x := xs[0];
      var head := if p(x) && q(x) then [x] else [];
      FilterCommutes(xs[1..], p, q);
      calc {
        Filter(Filter(xs, p), q);
        { FilterAppend(if p(x) then [x] else [], Filter(xs[1..], p), q); }
        Filter(if p(x) then [x] else [], q) + Filter(Filter(xs[1..], p), q);
        { assert Filter(if p(x) then [x] else [], q) == head; }
        head + Filter(Filter(xs[1..], q), p);
        { assert Filter(if q(x) then [x] else [], p) == head; }
        Filter(if q(x) then [x] else [], p) + Filter(Filter(xs[1..], q), p);
        { FilterAppend(if q(x) then [x] else [], Filter(xs[1..], q), p); }
        Filter(Filter(xs, q), p);
      }
    }
  }

  /** `xs.filter(p).length`: how many elements pass. */
  function Count<T(!new)>(xs: seq<T>, p: T -> bool): (n: nat)
    ensures n <= |xs|
  {
    |Filter(xs, p)|
  }

  /** The passing and the failing elements together make up the whole sequence. */
  lemma {:induction false} CountSplits<T(!new)>(xs: seq<T>, p: T -> bool, q: T -> bool)
    requires forall x :: q(x) == !p(x)
    ensures Count(xs, p) + Count(xs, q) == |xs|
  {
    if xs != [] {
      CountSplits(xs[1..], p, q);
    }
  }

  /** Adding up an integer measure over a sequence, left to right. */
  function SumOf<T(!new)>(xs: seq<T>, f: T -> int): int
  {
    if xs == [] then 0 else SumOf(xs[..|xs| - 1], f) + f(xs[|xs| - 1])
  }

  /** The sum of a concatenation is the sum of its parts. */
  lemma {:induction false} SumOfAppend<T(!new)>(xs: seq<T>, ys: seq<T>, f: T -> int)
    ensures SumOf(xs + ys, f) == SumOf(xs, f) + SumOf(ys, f)
  {
    if ys != [] {
      var zs := xs + ys;
      assert zs[..|zs| - 1] == xs + ys[..|ys| - 1];
      assert zs[|zs| - 1] == ys[|ys| - 1];
      SumOfAppend(xs, ys[..|ys| - 1], f);
    } else {
      assert xs + ys == xs;
    }
  }

  /** A sum splits into the part a filter keeps and the part it drops. */
  lemma {:induction false} SumOfSplits<T(!new)>(xs: seq<T>, f: T -> int, p: T -> bool, q: T -> bool)
    requires forall x :: q(x) == !p(x)
    ensures SumOf(Filter(xs, p), f) + SumOf(Filter(xs, q), f) == SumOf(xs, f)
  {
    if xs != [] {
      var x := xs[0];
      SumOfSplits(xs[1..], f, p, q);
      SumOfAppend(if p(x) then [x] else [], Filter(xs[1..], p), f);
      SumOfAppend(if q(x) then [x] else [], Filter(xs[1..], q), f);
      SumOfAppend([x], xs[1..], f);
      assert [x] + xs[1..] == xs;
      assert SumOf([x], f) == f(x) by {
        assert [x][..0] == [];
      }
    }
  }
}
