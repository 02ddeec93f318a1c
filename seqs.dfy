/** Sequence helpers standing in for the JavaScript array operations the game
    uses on its entity lists: `forEach` with an in-place update (Map) and
    `filter` (Filter). */
module Seqs {

  /** Applies `f` to every element, keeping positions. */
  function Map<T, U>(s: seq<T>, f: T -> U): (r: seq<U>)
    ensures |r| == |s|
    ensures forall i :: 0 <= i < |s| ==> r[i] == f(s[i])
  {
    if s == [] then [] else [f(s[0])] + Map(s[1..], f)
  }

  /** The elements of `s` that satisfy `keep`, in their original order
      (`Array.prototype.filter`). */
  function Filter<T>(s: seq<T>, keep: T -> bool): (r: seq<T>)
    ensures |r| <= |s|
    ensures forall x :: x in r ==> x in s && keep(x)
    ensures forall x :: x in s && keep(x) ==> x in r
  {
    if s == [] then []
    else (if keep(s[0]) then [s[0]] else []) + Filter(s[1..], keep)
  }

  /** `a` is obtained from `b` by deleting elements: same relative order. */
  ghost predicate IsSubsequence<T>(a: seq<T>, b: seq<T>)
    decreases |b|
  {
    if a == [] then true
    else if b == [] then false
    else if a[0] == b[0] then IsSubsequence(a[1..], b[1..])
    else IsSubsequence(a, b[1..])
  }

  /** Filtering deletes elements and never reorders the survivors. */
  lemma {:induction false} FilterKeepsOrder<T>(s: seq<T>, keep: T -> bool)
    ensures IsSubsequence(Filter(s, keep), s)
  {
    if s != [] {
      FilterKeepsOrder(s[1..], keep);
      var rest := Filter(s[1..], keep);
      if keep(s[0]) {
        assert Filter(s, keep) == [s[0]] + rest;
        assert ([s[0]] + rest)[1..] == rest;
      } else {
        assert Filter(s, keep) == rest;
        if rest != [] {
          assert rest[0] in rest;
          assert rest[0] != s[0];
        }
      }
    }
  }

  /** Filtering keeps every occurrence of a kept value and none of a dropped
      one: equal elements survive as many times as they occur. */
  lemma {:induction false} FilterCounts<T>(s: seq<T>, keep: T -> bool)
    ensures forall x :: multiset(Filter(s, keep))[x] == if keep(x) then multiset(s)[x] else 0
  {
    if s != [] {
      FilterCounts(s[1..], keep);
      assert s == [s[0]] + s[1..];
      assert multiset(s) == multiset{s[0]} + multiset(s[1..]);
    }
  }

  /** Filtering after a map is mapping the elements whose image is kept. */
  lemma {:induction false} FilterAfterMap<T, U>(s: seq<T>, f: T -> U, keep: U -> bool, pre: T -> bool)
    requires forall x :: pre(x) == keep(f(x))
    ensures Filter(Map(s, f), keep) == Map(Filter(s, pre), f)
  {
    if s != [] {
      FilterAfterMap(s[1..], f, keep, pre);
      assert Map(s, f)[1..] == Map(s[1..], f);
    }
  }
}
