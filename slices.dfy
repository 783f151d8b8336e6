/** Slices laid end to end in one flat array.

    A packed buffer holds one slice per geometry, in order. Slice i starts at
    the sum of the lengths of slices 0..i-1 (its Offset) and the whole buffer
    is the concatenation of the slices. This module states, once for both the
    face array and the attribute array, that such slices are contiguous, do
    not overlap and cover the buffer. */
module Slices {

  /** Where slice i starts when slices of lengths xs are laid end to end:
      the running total after the first i slices. */
  function Offset(xs: seq<nat>, i: nat): (offset: nat)
    requires i <= |xs|
  {
    if i == 0 then 0 else Offset(xs, i - 1) + xs[i - 1]
  }

  /** Total length of all slices. */
  function Sum(xs: seq<nat>): (total: nat)
  {
    Offset(xs, |xs|)
  }

  /** Slices come in order: slice i ends no later than any later slice j starts. */
  lemma {:induction false} SlicesOrdered(xs: seq<nat>, i: nat, j: nat)
    requires i < j <= |xs|
    ensures Offset(xs, i) + xs[i] <= Offset(xs, j)
    decreases j - i
  {
    if i + 1 < j {
      SlicesOrdered(xs, i + 1, j);
    }
  }

  /** Every slice lies inside the buffer of length Sum(xs). */
  lemma SliceWithin(xs: seq<nat>, i: nat)
    requires i < |xs|
    ensures Offset(xs, i) + xs[i] <= Sum(xs)
  {
    SlicesOrdered(xs, i, |xs|);
  }

  /** The slice among the first n that holds position q. */
  function OwnerBefore(xs: seq<nat>, n: nat, q: nat): (i: nat)
    requires n <= |xs| && q < Offset(xs, n)
    ensures i < n && Offset(xs, i) <= q < Offset(xs, i) + xs[i]
  {
    if Offset(xs, n - 1) <= q then n - 1 else OwnerBefore(xs, n - 1, q)
  }

  /** The slice that holds position q: every position of the buffer belongs to some slice. */
  function Owner(xs: seq<nat>, q: nat): (i: nat)
    requires q < Sum(xs)
    ensures i < |xs| && Offset(xs, i) <= q < Offset(xs, i) + xs[i]
  {
    OwnerBefore(xs, |xs|, q)
  }

  /** No position belongs to two slices: the slice holding q is Owner(xs, q). */
  lemma OwnerUnique(xs: seq<nat>, q: nat, j: nat)
    requires j < |xs| && Offset(xs, j) <= q < Offset(xs, j) + xs[j]
    ensures q < Sum(xs) && Owner(xs, q) == j
  {
    SliceWithin(xs, j);
    var i := Owner(xs, q);
    if i < j {
      SlicesOrdered(xs, i, j);
    } else if j < i {
      SlicesOrdered(xs, j, i);
    }
  }

  /** The lengths of a list of parts. */
  function Lengths<T>(ps: seq<seq<T>>): (lens: seq<nat>)
  {
    seq(|ps|, k requires 0 <= k < |ps| => |ps[k]|)
  }

  /** The first n parts written one after another. */
  function ConcatBefore<T>(ps: seq<seq<T>>, n: nat): (r: seq<T>)
    requires n <= |ps|
    ensures |r| == Offset(Lengths(ps), n)
  {
    if n == 0 then [] else ConcatBefore(ps, n - 1) + ps[n - 1]
  }

  /** All parts written one after another. */
  function Concat<T>(ps: seq<seq<T>>): (r: seq<T>)
    ensures |r| == Sum(Lengths(ps))
  {
    ConcatBefore(ps, |ps|)
  }

  /** Element p of part i sits at Offset(i) + p once parts 0..n-1 are
      written, for every n past i. */
  lemma {:induction false} ConcatBeforeAt<T>(ps: seq<seq<T>>, n: nat, i: nat, p: nat)
    requires i < n <= |ps| && p < |ps[i]|
    ensures Offset(Lengths(ps), i) + p < |ConcatBefore(ps, n)|
    ensures ConcatBefore(ps, n)[Offset(Lengths(ps), i) + p] == ps[i][p]
  {
    SlicesOrdered(Lengths(ps), i, n);
    if i < n - 1 {
      ConcatBeforeAt(ps, n - 1, i, p);
    }
  }

  /** Element p of part i sits at Offset(i) + p of the concatenation. */
  lemma ConcatAt<T>(ps: seq<seq<T>>, i: nat, p: nat)
    requires i < |ps| && p < |ps[i]|
    ensures Offset(Lengths(ps), i) + p < |Concat(ps)|
    ensures Concat(ps)[Offset(Lengths(ps), i) + p] == ps[i][p]
  {
    ConcatBeforeAt(ps, |ps|, i, p);
  }
}
