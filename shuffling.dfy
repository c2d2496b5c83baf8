/**
 * The list operations deck construction relies on: `shuffled()` and `take(n)`.
 * A shuffle is random; here it is modelled as an arbitrary permutation of the
 * indices, chosen by the caller, so every property proved holds for every
 * outcome of the shuffle.
 */
module Shuffling {

  /** The indices 0, 1, ..., n - 1 in order. */
  function Iota(n: nat): (r: seq<nat>)
    ensures |r| == n
    ensures forall i :: 0 <= i < n ==> r[i] == i
  {
    seq(n, i => i)
  }

  /** Every index in `p` is below `n`. */
  predicate InRange(p: seq<nat>, n: nat)
  {
    forall i :: 0 <= i < |p| ==> p[i] < n
  }

  /** `p` lists each of 0 .. n - 1 exactly once: one reordering of an n-element list. */
  predicate IsPermutation(p: seq<nat>, n: nat)
  {
    |p| == n && InRange(p, n) && multiset(p) == multiset(Iota(n))
  }

  /** No element occurs twice in `s`. */
  predicate Distinct<T(==)>(s: seq<T>)
  {
    forall i, j :: 0 <= i < j < |s| ==> s[i] != s[j]
  }

  /** The elements of `s` at the indices `p`, in the order `p` gives them. */
  function Pick<T>(s: seq<T>, p: seq<nat>): (r: seq<T>)
    requires InRange(p, |s|)
    ensures |r| == |p|
    ensures forall i :: 0 <= i < |p| ==> r[i] == s[p[i]]
  {
    if p == [] then [] else [s[p[0]]] + Pick(s, p[1..])
  }

  /** Removing the element at `j` removes one occurrence of it. */
  lemma RemoveAt<T>(q: seq<T>, j: nat)
    requires j < |q|
    ensures multiset(q[..j] + q[j + 1..]) == multiset(q) - multiset{q[j]}
  {
    assert q == q[..j] + [q[j]] + q[j + 1..];
  }

  /** Picking by `q` without its `j`-th index is picking by `q` without the `j`-th result. */
  lemma PickRemoveAt<T>(s: seq<T>, q: seq<nat>, j: nat)
    requires InRange(q, |s|) && j < |q|
    ensures InRange(q[..j] + q[j + 1..], |s|)
    ensures Pick(s, q[..j] + q[j + 1..]) == Pick(s, q)[..j] + Pick(s, q)[j + 1..]
  {
    var q' := q[..j] + q[j + 1..];
    assert forall i :: 0 <= i < |q'| ==> q'[i] == if i < j then q[i] else q[i + 1];
  }

  /** Picking by two index lists that hold the same indices yields the same elements. */
  lemma {:induction false} PickSameMultiset<T>(s: seq<T>, p: seq<nat>, q: seq<nat>)
    requires InRange(p, |s|) && InRange(q, |s|)
    requires multiset(p) == multiset(q)
    ensures multiset(Pick(s, p)) == multiset(Pick(s, q))
    decreases |p|
  {
    if p == [] {
      assert |q| == |multiset(q)| == 0;
    } else {
      var x := p[0];
      assert x in multiset(q) by { assert x in multiset(p); }
      var j :| 0 <= j < |q| && q[j] == x;
      var q' := q[..j] + q[j + 1..];
      RemoveAt(q, j);
      assert p == [x] + p[1..];
      assert multiset(p[1..]) == multiset(q');
      PickRemoveAt(s, q, j);
      PickSameMultiset(s, p[1..], q');
      var picked := Pick(s, q);
      RemoveAt(picked, j);
      assert picked[j] == s[x];
      AddBack(multiset(picked), s[x]);
      assert Pick(s, p) == [s[x]] + Pick(s, p[1..]);
      assert multiset(Pick(s, p)) == multiset{s[x]} + (multiset(picked) - multiset{s[x]});
    }
  }

  /** Taking one occurrence out of a multiset and putting it back gives the multiset again. */
  lemma AddBack<T>(m: multiset<T>, x: T)
    requires x in m
    ensures multiset{x} + (m - multiset{x}) == m
  {
  }

  /** Kotlin's `shuffled()`: `s` reordered by the permutation `p`. */
  function Shuffled<T>(s: seq<T>, p: seq<nat>): (r: seq<T>)
    requires IsPermutation(p, |s|)
    ensures |r| == |s|
    ensures multiset(r) == multiset(s)
    ensures forall i :: 0 <= i < |r| ==> r[i] == s[p[i]]
  {
    PickSameMultiset(s, p, Iota(|s|));
    assert Pick(s, Iota(|s|)) == s;
    Pick(s, p)
  }

  /** Kotlin's `take(n)`: the first `n` elements, or all of them when there are fewer. */
  function Take<T>(s: seq<T>, n: nat): (r: seq<T>)
    ensures |r| == if n <= |s| then n else |s|
    ensures r <= s
  {
    if n <= |s| then s[..n] else s
  }

  /** `take` keeps only elements of the list, no more often than they occur in it. */
  lemma TakeSubMultiset<T>(s: seq<T>, n: nat)
    ensures multiset(Take(s, n)) <= multiset(s)
  {
    if n <= |s| {
      assert s == s[..n] + s[n..];
    }
  }

  /** In a list without repetitions every element occurs once, every other value never. */
  lemma {:induction false} DistinctOnce<T>(s: seq<T>)
    requires Distinct(s)
    ensures forall x :: multiset(s)[x] == if x in s then 1 else 0
  {
    if s != [] {
      assert s == [s[0]] + s[1..];
      assert Distinct(s[1..]) by {
        forall i, j | 0 <= i < j < |s[1..]| ensures s[1..][i] != s[1..][j] {
          assert s[1..][i] == s[i + 1] && s[1..][j] == s[j + 1];
        }
      }
      DistinctOnce(s[1..]);
      assert forall k :: 0 <= k < |s[1..]| ==> s[1..][k] == s[k + 1];
      assert s[0] !in s[1..];
      forall x ensures multiset(s)[x] == if x in s then 1 else 0 {
        assert multiset(s)[x] == multiset([s[0]])[x] + multiset(s[1..])[x];
        assert x in s <==> x == s[0] || x in s[1..];
      }
    }
  }

  /** A list whose every value occurs at most once has no repetitions. */
  lemma OnceDistinct<T>(s: seq<T>)
    requires forall x :: multiset(s)[x] <= 1
    ensures Distinct(s)
  {
    forall i, j | 0 <= i < j < |s| ensures s[i] != s[j] {
      assert s == s[..i] + [s[i]] + s[i + 1..j] + [s[j]] + s[j + 1..];
      assert multiset(s)[s[i]] >= multiset([s[i]])[s[i]] + multiset([s[j]])[s[i]];
    }
  }

  /** Shuffling and taking a prefix keep a list free of repetitions. */
  lemma ShuffledTakeDistinct<T>(s: seq<T>, p: seq<nat>, n: nat)
    requires Distinct(s) && IsPermutation(p, |s|)
    ensures Distinct(Take(Shuffled(s, p), n))
  {
    var r := Shuffled(s, p);
    DistinctOnce(s);
    assert forall x :: multiset(r)[x] <= 1 by {
      forall x ensures multiset(r)[x] <= 1 { assert multiset(r)[x] == multiset(s)[x]; }
    }
    OnceDistinct(r);
  }
}
