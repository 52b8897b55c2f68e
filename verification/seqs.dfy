/** Sequence utilities shared by the orchestration model: Python's
    `str.join`, a flat-map used both for the `operator.add` fold and for
    reordering by completion, and permutations given as index orders. */
module Seqs {

  /** `sep.join(parts)`: the parts with `sep` between neighbours. */
  function Join(parts: seq<string>, sep: string): string
  {
    if |parts| == 0 then ""
    else if |parts| == 1 then parts[0]
    else parts[0] + sep + Join(parts[1..], sep)
  }

  /** Sum of the lengths of the parts. */
  function TotalLength(parts: seq<string>): nat
  {
    if |parts| == 0 then 0 else |parts[0]| + TotalLength(parts[1..])
  }

  /** A join is as long as its parts plus one separator between each neighbouring pair. */
  lemma {:induction false} JoinLength(parts: seq<string>, sep: string)
    ensures |parts| == 0 ==> |Join(parts, sep)| == 0
    ensures |parts| > 0 ==> |Join(parts, sep)| == TotalLength(parts) + (|parts| - 1) * |sep|
  {
    if |parts| > 1 {
      JoinLength(parts[1..], sep);
    }
  }

  /** Joining two non-empty lists is joining each and putting one separator between. */
  lemma {:induction false} JoinAppend(a: seq<string>, b: seq<string>, sep: string)
    requires |a| > 0 && |b| > 0
    ensures Join(a + b, sep) == Join(a, sep) + sep + Join(b, sep)
  {
    if |a| == 1 {
      assert (a + b)[1..] == b;
    } else {
      assert (a + b)[1..] == a[1..] + b;
      JoinAppend(a[1..], b, sep);
    }
  }

  /** Left-to-right accumulation of a join, as `str.join` builds its result;
      it agrees with the recursive definition. */
  method JoinLeft(parts: seq<string>, sep: string) returns (r: string)
    ensures r == Join(parts, sep)
  {
    if |parts| == 0 {
      return "";
    }
    r := parts[0];
    var i := 1;
    while i < |parts|
      invariant 1 <= i <= |parts|
      invariant r == Join(parts[..i], sep)
    {
      JoinAppend(parts[..i], [parts[i]], sep);
      assert parts[..i] + [parts[i]] == parts[..i + 1];
      r := r + sep + parts[i];
      i := i + 1;
    }
    assert parts[..i] == parts;
  }

  /** Concatenation of `f(x)` over the elements in order. */
  function FlatMap<T, U>(xs: seq<T>, f: T -> seq<U>): seq<U>
  {
    if |xs| == 0 then [] else f(xs[0]) + FlatMap(xs[1..], f)
  }

  lemma {:induction false} FlatMapAppend<T, U>(a: seq<T>, b: seq<T>, f: T -> seq<U>)
    ensures FlatMap(a + b, f) == FlatMap(a, f) + FlatMap(b, f)
  {
    if |a| > 0 {
      assert (a + b)[1..] == a[1..] + b;
      FlatMapAppend(a[1..], b, f);
    } else {
      assert a + b == b;
    }
  }

  /** When every element contributes exactly one item, the flat-map is as long as its input. */
  lemma {:induction false} FlatMapSingletons<T, U>(xs: seq<T>, f: T -> seq<U>)
    requires forall i :: 0 <= i < |xs| ==> |f(xs[i])| == 1
    ensures |FlatMap(xs, f)| == |xs|
    ensures forall i :: 0 <= i < |xs| ==> FlatMap(xs, f)[i] == f(xs[i])[0]
  {
    if |xs| > 0 {
      FlatMapSingletons(xs[1..], f);
    }
  }

  /** The multiset of a flat-map depends only on the multiset of its input:
      contributions may arrive in any order. */
  lemma {:induction false} FlatMapPermutation<T, U>(a: seq<T>, b: seq<T>, f: T -> seq<U>)
    requires multiset(a) == multiset(b)
    ensures multiset(FlatMap(a, f)) == multiset(FlatMap(b, f))
    decreases |a|
  {
    if |a| == 0 {
      assert |multiset(b)| == 0;
      assert b == [];
    } else {
      var x := a[0];
      assert x in multiset(b);
      var j :| 0 <= j < |b| && b[j] == x;
      var rest := b[..j] + b[j + 1..];
      assert b == b[..j] + [x] + b[j + 1..];
      assert a == [x] + a[1..];
      assert multiset(b) == multiset(b[..j]) + multiset{x} + multiset(b[j + 1..]);
      assert multiset(a) == multiset{x} + multiset(a[1..]);
      assert multiset(rest) == multiset(b[..j]) + multiset(b[j + 1..]);
      assert multiset(a[1..]) == multiset(a) - multiset{x};
      assert multiset(rest) == multiset(b) - multiset{x};
      FlatMapPermutation(a[1..], rest, f);
      FlatMapAppend(b[..j] + [x], b[j + 1..], f);
      FlatMapAppend(b[..j], [x], f);
      FlatMapAppend(b[..j], b[j + 1..], f);
      assert FlatMap([x], f) == f(x);
    }
  }

  /** The indices `0, 1, ..., n-1` in order. */
  function Range(n: nat): seq<nat>
  {
    seq(n, i => i)
  }

  /** `order` lists every index below `n` exactly once. */
  ghost predicate IsPermutation(order: seq<nat>, n: nat)
  {
    multiset(order) == multiset(Range(n))
  }

  /** The element at `i` as a one-item list, nothing when `i` is out of range. */
  function Pick<T>(xs: seq<T>, i: nat): seq<T>
  {
    if i < |xs| then [xs[i]] else []
  }

  function Picker<T>(xs: seq<T>): nat -> seq<T>
  {
    (i: nat) => Pick(xs, i)
  }

  /** `xs` rearranged so that its `k`-th item is `xs[order[k]]`. */
  function Reorder<T>(xs: seq<T>, order: seq<nat>): seq<T>
  {
    FlatMap(order, Picker(xs))
  }

  lemma ReorderPair<T>(xs: seq<T>, i: nat, j: nat)
    requires i < |xs| && j < |xs|
    ensures Reorder(xs, [i, j]) == [xs[i], xs[j]]
  {
    var order: seq<nat> := [i, j];
    assert order[1..] == [j];
    assert FlatMap(order[1..], Picker(xs)) == Pick(xs, j) + FlatMap(order[1..][1..], Picker(xs));
    assert order[1..][1..] == [];
    assert FlatMap(order, Picker(xs)) == Pick(xs, i) + FlatMap(order[1..], Picker(xs));
  }

  lemma {:induction false} ReorderIdentity<T>(xs: seq<T>, n: nat)
    requires n <= |xs|
    ensures Reorder(xs, Range(n)) == xs[..n]
  {
    if n > 0 {
      var last: nat := n - 1;
      ReorderIdentity(xs, last);
      assert Range(n) == Range(last) + [last];
      FlatMapAppend(Range(last), [last], Picker(xs));
      assert FlatMap([last], Picker(xs)) == [xs[last]];
      assert xs[..n] == xs[..n - 1] + [xs[n - 1]];
    }
  }

  /** Reordering by a permutation keeps every item, with its multiplicity, and the length. */
  lemma ReorderPermutation<T>(xs: seq<T>, order: seq<nat>)
    requires IsPermutation(order, |xs|)
    ensures multiset(Reorder(xs, order)) == multiset(xs)
    ensures |Reorder(xs, order)| == |xs|
  {
    FlatMapPermutation(order, Range(|xs|), Picker(xs));
    ReorderIdentity(xs, |xs|);
    assert xs[..|xs|] == xs;
    assert |multiset(Reorder(xs, order))| == |multiset(xs)|;
  }
}
