/** Ascending order of a list of widget ids, as `sort.Ints` establishes it. */
module Sorting {

  predicate Sorted(s: seq<int>) {
    forall i, j | 0 <= i < j < |s| :: s[i] <= s[j]
  }

  /** Places `x` into a sorted list. */
  function Insert(x: int, s: seq<int>): (r: seq<int>)
    requires Sorted(s)
    ensures Sorted(r)
    ensures multiset(r) == multiset(s) + multiset{x}
    decreases |s|
  {
    if s == [] then [x]
    else if x <= s[0] then [x] + s
    else
      var t := Insert(x, s[1..]);
      assert s == [s[0]] + s[1..];
      BelowAll(s[0], t, s[1..], x);
      [s[0]] + t
  }

  /** `h` in front of a sorted list that holds `x` and the elements of `rest`, all of them at least `h`, keeps it sorted. */
  lemma BelowAll(h: int, t: seq<int>, rest: seq<int>, x: int)
    requires Sorted(t) && multiset(t) == multiset(rest) + multiset{x}
    requires h <= x && forall i | 0 <= i < |rest| :: h <= rest[i]
    ensures Sorted([h] + t)
  {
    forall i | 0 <= i < |t|
      ensures h <= t[i]
    {
      assert t[i] in multiset(t);
      if t[i] != x {
        assert t[i] in multiset(rest);
        assert t[i] in rest;
      }
    }
  }

  /** A sorted permutation of `s`. */
  function SortInts(s: seq<int>): (r: seq<int>)
    ensures Sorted(r)
    ensures multiset(r) == multiset(s)
    decreases |s|
  {
    if s == [] then []
    else
      assert s == s[..|s| - 1] + [s[|s| - 1]];
      Insert(s[|s| - 1], SortInts(s[..|s| - 1]))
  }

  lemma SortedTail(s: seq<int>)
    requires Sorted(s) && s != []
    ensures Sorted(s[1..])
  {
  }

  /** Two sorted lists with the same elements start with the same (least) element. */
  lemma SameHead(a: seq<int>, b: seq<int>)
    requires Sorted(a) && Sorted(b) && a != []
    requires multiset(a) == multiset(b)
    ensures b != [] && a[0] == b[0]
  {
    assert a[0] in multiset(b);
    assert b[0] in multiset(a);
    assert a[0] in b && b[0] in a;
  }

  lemma SameTail(a: seq<int>, b: seq<int>)
    requires a != [] && b != [] && a[0] == b[0]
    requires multiset(a) == multiset(b)
    ensures multiset(a[1..]) == multiset(b[1..])
  {
    assert a == [a[0]] + a[1..] && b == [b[0]] + b[1..];
    assert multiset(a[1..]) == multiset(a) - multiset{a[0]};
    assert multiset(b[1..]) == multiset(b) - multiset{b[0]};
  }

  /** A list of integers has only one sorted permutation; so any sorting routine, stable or
      not, agrees with `SortInts`. */
  lemma {:induction false} SortedPermutationUnique(a: seq<int>, b: seq<int>)
    requires Sorted(a) && Sorted(b)
    requires multiset(a) == multiset(b)
    ensures a == b
    decreases |a|
  {
    if a != [] {
      SameHead(a, b);
      SameTail(a, b);
      SortedTail(a);
      SortedTail(b);
      SortedPermutationUnique(a[1..], b[1..]);
      assert a == [a[0]] + a[1..] && b == [b[0]] + b[1..];
    } else {
      assert |b| == |multiset(b)| == 0;
    }
  }
}
