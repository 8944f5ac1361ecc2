/** Generic facts about sequences used by the card counting code. */
module Seqs {

  /** The sequence of f applied to every element of s, in order (JavaScript's `map`). */
  function Map<A, B>(f: A -> B, s: seq<A>): (r: seq<B>)
    ensures |r| == |s|
    ensures forall k :: 0 <= k < |s| ==> r[k] == f(s[k])
  {
    seq(|s|, k requires 0 <= k < |s| => f(s[k]))
  }

  lemma MapAppend<A, B>(f: A -> B, s: seq<A>, t: seq<A>)
    ensures Map(f, s + t) == Map(f, s) + Map(f, t)
  {
  }

  /** The sequence s without its element at index k. */
  function Without<A>(s: seq<A>, k: nat): (r: seq<A>)
    requires k < |s|
    ensures multiset(s) == multiset(r) + multiset{s[k]}
  {
    assert s == s[..k] + [s[k]] + s[k + 1..];
    s[..k] + s[k + 1..]
  }

  /** Removing an element before or after mapping makes no difference. */
  lemma MapWithout<A, B>(f: A -> B, s: seq<A>, k: nat)
    requires k < |s|
    ensures Map(f, Without(s, k)) == Without(Map(f, s), k)
  {
  }

  lemma Cancel<A>(m: multiset<A>, n: multiset<A>, x: A)
    requires m + multiset{x} == n + multiset{x}
    ensures m == n
  {
    forall y ensures m[y] == n[y] {
      assert (m + multiset{x})[y] == (n + multiset{x})[y];
    }
  }

  /** Mapping two sequences that are permutations of each other gives permutations of each other. */
  lemma {:induction false} MapPermutation<A, B>(f: A -> B, s: seq<A>, t: seq<A>)
    requires multiset(s) == multiset(t)
    ensures multiset(Map(f, s)) == multiset(Map(f, t))
    decreases |s|
  {
    if |s| > 0 {
      var x := s[0];
      assert x in multiset(t);
      var k :| 0 <= k < |t| && t[k] == x;
      var s', t' := Without(s, 0), Without(t, k);
      Cancel(multiset(s'), multiset(t'), x);
      MapPermutation(f, s', t');
      MapWithout(f, s, 0);
      MapWithout(f, t, k);
      assert multiset(Map(f, s)) == multiset(Map(f, s')) + multiset{f(x)};
      assert multiset(Map(f, t)) == multiset(Map(f, t')) + multiset{f(x)};
    }
  }

  /** A finite set has at least two elements exactly when it has two different ones. */
  lemma TwoElements<T>(vs: set<T>)
    ensures |vs| >= 2 <==> exists v, w :: v in vs && w in vs && v != w
  {
    if |vs| >= 2 {
      assert vs != {};
      var v :| v in vs;
      assert |vs - {v}| == |vs| - 1;
      assert vs - {v} != {};
      var w :| w in vs - {v};
    }
    if exists v, w :: v in vs && w in vs && v != w {
      var v, w :| v in vs && w in vs && v != w;
      assert {v, w} <= vs;
      assert |{v, w}| == 2;
      SubsetSize({v, w}, vs);
    }
  }

  lemma {:induction false} SubsetSize<T>(a: set<T>, b: set<T>)
    requires a <= b
    ensures |a| <= |b|
    decreases |a|
  {
    if |a| > 0 {
      assert a != {};
      var x :| x in a;
      SubsetSize(a - {x}, b - {x});
    }
  }

  /** In a sequence without repeats, every element it holds occurs exactly once. */
  lemma {:induction false} DistinctOnce<T>(s: seq<T>, x: T)
    requires forall i, j :: 0 <= i < j < |s| ==> s[i] != s[j]
    requires x in s
    ensures multiset(s)[x] == 1
    decreases |s|
  {
    var n := |s| - 1;
    var rest := s[..n];
    assert s == rest + [s[n]];
    if s[n] == x {
      assert forall i :: 0 <= i < n ==> rest[i] != s[n];
      assert x !in rest;
    } else {
      assert x in rest;
      DistinctOnce(rest, x);
    }
  }
}
