/**
 * Sequence facts the reassembly relies on, stated for any element type so
 * that the key functions stay abstract: filtering with a partial map,
 * Python's stable `sorted(xs, key=...)`, and how both behave under
 * permutation.
 */
module Seqs {
  import opened Wrappers

  /** The images `f(x)` of the elements `x` for which `f` gives a value, in order. */
  function FilterMap<T, U>(xs: seq<T>, f: T -> Option<U>): (r: seq<U>)
    ensures forall y | y in r :: exists x | x in xs :: f(x) == Some(y)
  {
    if |xs| == 0 then []
    else
      var last := xs[|xs| - 1];
      assert last in xs;
      assert forall x | x in xs[..|xs| - 1] :: x in xs;
      FilterMap(xs[..|xs| - 1], f) + (if f(last).Some? then [f(last).value] else [])
  }

  lemma {:induction false} FilterMapAppend<T, U>(a: seq<T>, b: seq<T>, f: T -> Option<U>)
    ensures FilterMap(a + b, f) == FilterMap(a, f) + FilterMap(b, f)
    decreases |b|
  {
    if |b| > 0 {
      FilterMapAppend(a, b[..|b| - 1], f);
      assert (a + b)[..|a + b| - 1] == a + b[..|b| - 1];
    } else {
      assert a + b == a;
    }
  }

  /** Removing one occurrence of the last element of `e1` from a permutation `e2` of it. */
  lemma SplitOut<T>(e1: seq<T>, e2: seq<T>) returns (j: nat)
    requires |e1| > 0 && multiset(e1) == multiset(e2)
    ensures j < |e2| && e2[j] == e1[|e1| - 1]
    ensures e2 == e2[..j] + [e2[j]] + e2[j + 1..]
    ensures multiset(e1[..|e1| - 1]) == multiset(e2[..j] + e2[j + 1..])
  {
    var x := e1[|e1| - 1];
    assert e1 == e1[..|e1| - 1] + [x];
    assert x in multiset(e2);
    j :| 0 <= j < |e2| && e2[j] == x;
    assert e2 == e2[..j] + [x] + e2[j + 1..];
    assert multiset(e1[..|e1| - 1]) == multiset(e1) - multiset{x};
    assert multiset(e2[..j] + e2[j + 1..]) == multiset(e2) - multiset{x};
  }

  lemma PermutationStep<T>(a: seq<T>, b: seq<T>, c: seq<T>, x: seq<T>)
    requires multiset(a) == multiset(b + c)
    ensures multiset(a + x) == multiset(b + x + c)
  {
  }

  /** Filtering a permutation gives a permutation of the filtered sequence. */
  lemma {:induction false} FilterMapPermutation<T, U>(e1: seq<T>, e2: seq<T>, f: T -> Option<U>)
    requires multiset(e1) == multiset(e2)
    ensures multiset(FilterMap(e1, f)) == multiset(FilterMap(e2, f))
    decreases |e1|
  {
    if |e1| == 0 {
      assert |e2| == |multiset(e2)| == 0;
    } else {
      var n := |e1| - 1;
      var j := SplitOut(e1, e2);
      var before, after, x := e2[..j], e2[j + 1..], [e2[j]];
      FilterMapPermutation(e1[..n], before + after, f);
      assert e1 == e1[..n] + x;
      FilterMapAppend(e1[..n], x, f);
      FilterMapAppend(before, after, f);
      FilterMapAppend(before + x, after, f);
      FilterMapAppend(before, x, f);
      PermutationStep(FilterMap(e1[..n], f), FilterMap(before, f), FilterMap(after, f), FilterMap(x, f));
    }
  }

  lemma SameElements<T>(a: seq<T>, b: seq<T>)
    requires multiset(a) == multiset(b)
    ensures forall x :: x in a <==> x in b
  {
    forall x ensures x in a <==> x in b {
      assert x in a <==> x in multiset(a);
      assert x in b <==> x in multiset(b);
    }
  }

  predicate SortedBy<T>(xs: seq<T>, key: T -> nat)
  {
    forall i, j :: 0 <= i < j < |xs| ==> key(xs[i]) <= key(xs[j])
  }

  /** Different elements have different keys. */
  ghost predicate KeyInjective<T>(xs: seq<T>, key: T -> nat)
  {
    forall x, y | x in multiset(xs) && y in multiset(xs) && x != y :: key(x) != key(y)
  }

  /** Puts `x` in front of the first element whose key is not smaller. */
  function InsertBy<T>(x: T, xs: seq<T>, key: T -> nat): (r: seq<T>)
    ensures multiset(r) == multiset(xs) + multiset{x}
    ensures |r| == |xs| + 1
  {
    if |xs| == 0 || key(x) <= key(xs[0]) then [x] + xs
    else
      assert xs == [xs[0]] + xs[1..];
      [xs[0]] + InsertBy(x, xs[1..], key)
  }

  lemma {:induction false} InsertBySorted<T>(x: T, xs: seq<T>, key: T -> nat)
    requires SortedBy(xs, key)
    ensures SortedBy(InsertBy(x, xs, key), key)
  {
    if |xs| > 0 && key(x) > key(xs[0]) {
      var tail := InsertBy(x, xs[1..], key);
      InsertBySorted(x, xs[1..], key);
      assert xs == [xs[0]] + xs[1..];
      forall y | y in tail ensures key(xs[0]) <= key(y) {
        assert y in multiset(tail);
        if y != x {
          assert y in xs[1..];
        }
      }
    }
  }

  /**
   * Python's `sorted(xs, key=key)` by insertion: an element is inserted in
   * front of the elements after it whose keys are not smaller, so equal
   * keys keep their input order.
   */
  function SortBy<T>(xs: seq<T>, key: T -> nat): (r: seq<T>)
    ensures multiset(r) == multiset(xs)
    ensures |r| == |xs|
    ensures SortedBy(r, key)
  {
    if |xs| == 0 then []
    else
      assert xs == [xs[0]] + xs[1..];
      var rest := SortBy(xs[1..], key);
      InsertBySorted(xs[0], rest, key);
      InsertBy(xs[0], rest, key)
  }

  /** The elements of `xs` whose key is `k`, in their order in `xs`. */
  function WithKey<T>(xs: seq<T>, key: T -> nat, k: nat): (r: seq<T>)
    ensures |r| <= |xs|
  {
    if |xs| == 0 then []
    else (if key(xs[0]) == k then [xs[0]] else []) + WithKey(xs[1..], key, k)
  }

  /** Inserting `x` puts it before every element of `xs` with the same key. */
  lemma {:induction false} InsertByWithKey<T>(x: T, xs: seq<T>, key: T -> nat, k: nat)
    ensures WithKey(InsertBy(x, xs, key), key, k) == (if key(x) == k then [x] else []) + WithKey(xs, key, k)
  {
    var mine := if key(x) == k then [x] else [];
    if |xs| == 0 || key(x) <= key(xs[0]) {
      var r := [x] + xs;
      assert InsertBy(x, xs, key) == r;
      assert r[0] == x && r[1..] == xs;
      assert WithKey(r, key, k) == mine + WithKey(xs, key, k);
    } else {
      var tail := InsertBy(x, xs[1..], key);
      var r := [xs[0]] + tail;
      assert InsertBy(x, xs, key) == r;
      assert r[0] == xs[0] && r[1..] == tail;
      InsertByWithKey(x, xs[1..], key, k);
      var first := if key(xs[0]) == k then [xs[0]] else [];
      assert WithKey(r, key, k) == first + WithKey(tail, key, k);
      assert WithKey(xs, key, k) == first + WithKey(xs[1..], key, k);
      if first == [] {
        assert WithKey(r, key, k) == WithKey(tail, key, k) && WithKey(xs, key, k) == WithKey(xs[1..], key, k);
      } else {
        assert mine == [];
        assert WithKey(tail, key, k) == WithKey(xs[1..], key, k);
      }
    }
  }

  /** `sorted` is stable: the elements with any one key keep their input order. */
  lemma {:induction false} SortByStable<T>(xs: seq<T>, key: T -> nat, k: nat)
    ensures WithKey(SortBy(xs, key), key, k) == WithKey(xs, key, k)
  {
    if |xs| > 0 {
      SortByStable(xs[1..], key, k);
      InsertByWithKey(xs[0], SortBy(xs[1..], key), key, k);
    }
  }

  lemma SortedHeads<T>(a: seq<T>, b: seq<T>, key: T -> nat)
    requires |a| > 0 && multiset(a) == multiset(b)
    requires SortedBy(a, key) && SortedBy(b, key) && KeyInjective(a, key)
    ensures |b| > 0 && a[0] == b[0]
  {
    assert a[0] in multiset(a) && a[0] in multiset(b);
    var j :| 0 <= j < |b| && b[j] == a[0];
    assert b[0] in multiset(b) && b[0] in multiset(a);
    var i :| 0 <= i < |a| && a[i] == b[0];
    assert key(b[0]) <= key(b[j]);
    assert key(a[0]) <= key(a[i]);
  }

  lemma SortedTail<T>(a: seq<T>, key: T -> nat)
    requires |a| > 0 && SortedBy(a, key)
    ensures SortedBy(a[1..], key)
  {
    forall i, j | 0 <= i < j < |a| - 1 ensures key(a[1..][i]) <= key(a[1..][j]) {
      assert a[1..][i] == a[i + 1] && a[1..][j] == a[j + 1];
    }
  }

  lemma TailMultiset<T>(a: seq<T>)
    requires |a| > 0
    ensures multiset(a[1..]) == multiset(a) - multiset{a[0]}
  {
    assert a == [a[0]] + a[1..];
  }

  lemma InjectiveTail<T>(a: seq<T>, key: T -> nat)
    requires |a| > 0 && KeyInjective(a, key)
    ensures KeyInjective(a[1..], key)
  {
    TailMultiset(a);
    forall x, y | x in multiset(a[1..]) && y in multiset(a[1..]) && x != y ensures key(x) != key(y) {
      assert x in multiset(a) && y in multiset(a);
    }
  }

  lemma SortedTails<T>(a: seq<T>, b: seq<T>, key: T -> nat)
    requires |a| > 0 && |b| > 0 && a[0] == b[0] && multiset(a) == multiset(b)
    requires SortedBy(a, key) && SortedBy(b, key) && KeyInjective(a, key)
    ensures multiset(a[1..]) == multiset(b[1..])
    ensures SortedBy(a[1..], key) && SortedBy(b[1..], key) && KeyInjective(a[1..], key)
  {
    TailMultiset(a);
    TailMultiset(b);
    SortedTail(a, key);
    SortedTail(b, key);
    InjectiveTail(a, key);
  }

  /** Two sorted orderings of the same elements agree when no two elements share a key. */
  lemma {:induction false} SortedUnique<T>(a: seq<T>, b: seq<T>, key: T -> nat)
    requires multiset(a) == multiset(b)
    requires SortedBy(a, key) && SortedBy(b, key) && KeyInjective(a, key)
    ensures a == b
    decreases |a|
  {
    if |a| == 0 {
      assert |b| == |multiset(b)| == 0;
    } else {
      SortedHeads(a, b, key);
      SortedTails(a, b, key);
      SortedUnique(a[1..], b[1..], key);
      assert a == [a[0]] + a[1..] && b == [b[0]] + b[1..];
    }
  }

  /** Sorting forgets the input order when keys are distinct. */
  lemma SortByPermutation<T>(a: seq<T>, b: seq<T>, key: T -> nat)
    requires multiset(a) == multiset(b) && KeyInjective(a, key)
    ensures SortBy(a, key) == SortBy(b, key)
  {
    SortedUnique(SortBy(a, key), SortBy(b, key), key);
  }
}
