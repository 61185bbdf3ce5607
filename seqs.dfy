/** Sequence facts shared by every component: the `filter` that the service,
    the store, the upload form and the sheet list all use. */
module Seqs {

  /** `a` is `b` with some of its elements left out, the rest in their order. */
  predicate Sub<T(==)>(a: seq<T>, b: seq<T>)
    decreases |b|
  {
    if a == [] then true
    else if b == [] then false
    else (a[|a| - 1] == b[|b| - 1] && Sub(a[..|a| - 1], b[..|b| - 1])) || Sub(a, b[..|b| - 1])
  }

  /** `Array.prototype.filter`: the elements of `s` that `keep` accepts, in
      their order, each as often as it occurs in `s`. */
  function Filter<T(==,!new)>(s: seq<T>, keep: T -> bool): (r: seq<T>)
    ensures Sub(r, s)
    ensures forall x :: x in r ==> keep(x)
    ensures forall x :: keep(x) ==> multiset(r)[x] == multiset(s)[x]
  {
    if s == [] then []
    else
      var init, last := s[..|s| - 1], s[|s| - 1];
      var rest := Filter(init, keep);
      assert s == init + [last];
      assert multiset(s) == multiset(init) + multiset{last};
      if keep(last) then
        assert (rest + [last])[..|rest|] == rest;
        assert multiset(rest + [last]) == multiset(rest) + multiset{last};
        rest + [last]
      else
        rest
  }

  /** `f` applied to each element and its index, the last element first: the
      order a sequence of prepends leaves behind. */
  function Stacked<A, B>(xs: seq<A>, f: (A, nat) -> B): (r: seq<B>)
    ensures |r| == |xs|
  {
    if xs == [] then [] else [f(xs[|xs| - 1], |xs| - 1)] + Stacked(xs[..|xs| - 1], f)
  }

  /** The k-th element's result sits k places from the end. */
  lemma {:induction false} StackedContents<A, B>(xs: seq<A>, f: (A, nat) -> B)
    ensures forall k :: 0 <= k < |xs| ==> Stacked(xs, f)[|xs| - 1 - k] == f(xs[k], k)
  {
    if xs != [] {
      var n := |xs| - 1;
      StackedContents(xs[..n], f);
      forall k | 0 <= k < n ensures Stacked(xs, f)[|xs| - 1 - k] == f(xs[k], k) {
        assert xs[..n][k] == xs[k];
      }
    }
  }

  /** One element more puts its result in front. */
  lemma StackedStep<A, B>(xs: seq<A>, f: (A, nat) -> B, k: nat)
    requires k < |xs|
    ensures Stacked(xs[..k + 1], f) == [f(xs[k], k)] + Stacked(xs[..k], f)
  {
    assert xs[..k + 1][..k] == xs[..k];
  }

  /** Prepending regroups: `[x] + (a + b)` is `([x] + a) + b`. */
  lemma PrependAssoc<T>(x: T, a: seq<T>, b: seq<T>)
    ensures [x] + (a + b) == ([x] + a) + b
  {
  }

  /** Every sequence is a subsequence of itself. */
  lemma {:induction false} SubReflexive<T>(s: seq<T>)
    ensures Sub(s, s)
    decreases |s|
  {
    if s != [] {
      SubReflexive(s[..|s| - 1]);
    }
  }

  /** A subsequence holds nothing its super-sequence does not. */
  lemma {:induction false} SubMembers<T>(a: seq<T>, b: seq<T>)
    requires Sub(a, b)
    ensures |a| <= |b|
    ensures forall x :: x in a ==> x in b
    decreases |b|
  {
    if a != [] && b != [] {
      if a[|a| - 1] == b[|b| - 1] && Sub(a[..|a| - 1], b[..|b| - 1]) {
        SubMembers(a[..|a| - 1], b[..|b| - 1]);
        assert a == a[..|a| - 1] + [a[|a| - 1]];
        assert b == b[..|b| - 1] + [b[|b| - 1]];
      } else {
        SubMembers(a, b[..|b| - 1]);
        assert b == b[..|b| - 1] + [b[|b| - 1]];
      }
    }
  }

  /** Filtering with a test that every element passes gives the sequence back. */
  lemma {:induction false} FilterKeepsAll<T(!new)>(s: seq<T>, keep: T -> bool)
    requires forall x :: x in s ==> keep(x)
    ensures Filter(s, keep) == s
  {
    if s != [] {
      FilterKeepsAll(s[..|s| - 1], keep);
      assert s == s[..|s| - 1] + [s[|s| - 1]];
    }
  }
}
