/** Concatenating the results of a function over a sequence, the shape shared by the worker's
    output loop and the CSV row loops. */
module Seqs {

  /** `f(xs[0]) + f(xs[1]) + ...`. */
  function Concat<T, R>(f: T -> seq<R>, xs: seq<T>): seq<R>
    decreases |xs|
  {
    if xs == [] then [] else Concat(f, xs[..|xs| - 1]) + f(xs[|xs| - 1])
  }

  /** `|f(xs[0])| + |f(xs[1])| + ...`. */
  function LenSum<T, R>(f: T -> seq<R>, xs: seq<T>): nat
    decreases |xs|
  {
    if xs == [] then 0 else LenSum(f, xs[..|xs| - 1]) + |f(xs[|xs| - 1])|
  }

  lemma {:induction false} ConcatLength<T, R>(f: T -> seq<R>, xs: seq<T>)
    ensures |Concat(f, xs)| == LenSum(f, xs)
    decreases |xs|
  {
    if xs != [] {
      ConcatLength(f, xs[..|xs| - 1]);
    }
  }

  lemma {:induction false} ConcatAppend<T, R>(f: T -> seq<R>, a: seq<T>, b: seq<T>)
    ensures Concat(f, a + b) == Concat(f, a) + Concat(f, b)
    decreases |b|
  {
    if b == [] {
      assert a + b == a;
    } else {
      assert (a + b)[..|a + b| - 1] == a + b[..|b| - 1];
      ConcatAppend(f, a, b[..|b| - 1]);
    }
  }

  /** The k-th element of `f(xs[i])` sits after the results for `xs[..i]`. */
  lemma {:induction false} ConcatIndex<T, R>(f: T -> seq<R>, xs: seq<T>, i: nat, k: nat)
    requires i < |xs| && k < |f(xs[i])|
    ensures LenSum(f, xs[..i]) + k < |Concat(f, xs)|
    ensures Concat(f, xs)[LenSum(f, xs[..i]) + k] == f(xs[i])[k]
  {
    var a, b := xs[..i], xs[i..];
    assert xs == a + b;
    ConcatAppend(f, a, b);
    ConcatLength(f, a);
    assert b == [xs[i]] + b[1..];
    ConcatAppend(f, [xs[i]], b[1..]);
    assert [xs[i]][..0] == [];
    assert Concat(f, [xs[i]]) == f(xs[i]);
  }

  lemma AppendAssoc<R>(a: seq<R>, b: seq<R>, c: seq<R>)
    ensures (a + b) + c == a + (b + c)
  {
  }

  /** Removing element `j` of `b`. */
  lemma MoveToEnd<T>(b: seq<T>, j: nat) returns (rest: seq<T>)
    requires j < |b|
    ensures rest == b[..j] + b[j + 1..]
    ensures multiset(b) == multiset(rest) + multiset{b[j]}
    ensures b == b[..j] + [b[j]] + b[j + 1..]
  {
    rest := b[..j] + b[j + 1..];
    assert b == b[..j] + [b[j]] + b[j + 1..];
  }

  lemma CancelOne<T>(m: multiset<T>, n: multiset<T>, x: T)
    requires m + multiset{x} == n + multiset{x}
    ensures m == n
  {
    assert forall y :: m[y] == (m + multiset{x})[y] - (if y == x then 1 else 0);
    assert forall y :: n[y] == (n + multiset{x})[y] - (if y == x then 1 else 0);
  }

  /** The induction step shared by the permutation lemmas: the last element of `a` is somewhere
      in `b`, and what remains of both is again a permutation pair. */
  lemma PickLast<T>(a: seq<T>, b: seq<T>) returns (front: seq<T>, x: T, j: nat, rest: seq<T>)
    requires multiset(a) == multiset(b) && a != []
    ensures a == front + [x] && j < |b| && b[j] == x
    ensures rest == b[..j] + b[j + 1..] && b == b[..j] + [x] + b[j + 1..]
    ensures multiset(front) == multiset(rest) && |front| < |a|
  {
    front, x := a[..|a| - 1], a[|a| - 1];
    assert a == front + [x];
    assert multiset(a) == multiset(front) + multiset{x};
    assert x in multiset(b);
    j :| 0 <= j < |b| && b[j] == x;
    rest := MoveToEnd(b, j);
    CancelOne(multiset(front), multiset(rest), x);
  }

  /** Reordering the arguments permutes the concatenated results. */
  lemma {:induction false} ConcatPermutation<T, R>(f: T -> seq<R>, a: seq<T>, b: seq<T>)
    requires multiset(a) == multiset(b)
    ensures multiset(Concat(f, a)) == multiset(Concat(f, b))
    decreases |a|
  {
    if a == [] {
      assert |b| == |multiset(b)| == 0;
    } else {
      var front, x, j, rest := PickLast(a, b);
      ConcatPermutation(f, front, rest);
      ConcatAppend(f, b[..j], b[j + 1..]);
      ConcatAppend(f, b[..j] + [x], b[j + 1..]);
      assert (b[..j] + [x])[..j] == b[..j];
    }
  }
}
