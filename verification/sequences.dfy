/** Finite sequences: filtering, trailing slices and suffixes. */
module Sequences {

  datatype Option<+T> = None | Some(value: T)

  function Filter<T>(p: T -> bool, s: seq<T>): (r: seq<T>)
    ensures |r| <= |s|
    ensures forall x :: x in r ==> x in s && p(x)
    ensures forall x :: x in s && p(x) ==> x in r
  {
    if s == [] then [] else (if p(s[0]) then [s[0]] else []) + Filter(p, s[1..])
  }

  lemma FilterConcat<T>(p: T -> bool, a: seq<T>, b: seq<T>)
    ensures Filter(p, a + b) == Filter(p, a) + Filter(p, b)
  {
    if a == [] {
      assert a + b == b;
    } else {
      assert (a + b)[1..] == a[1..] + b;
      FilterConcat(p, a[1..], b);
    }
  }

  lemma FilterAppend<T>(p: T -> bool, s: seq<T>, x: T)
    ensures Filter(p, s + [x]) == Filter(p, s) + if p(x) then [x] else []
  {
    FilterConcat(p, s, [x]);
    assert [x][1..] == [];
  }

  /** Filtering keeps the order of what it keeps. */
  lemma {:induction false} FilterKeepsOrder<T>(f: T -> bool, s: seq<T>, p: nat, q: nat) returns (i: nat, j: nat)
    requires p < q < |s| && f(s[p]) && f(s[q])
    ensures i < j < |Filter(f, s)| && Filter(f, s)[i] == s[p] && Filter(f, s)[j] == s[q]
  {
    var a, b, c := s[..p], s[p + 1..q], s[q + 1..];
    assert s == (a + [s[p]]) + b + [s[q]] + c;
    FilterConcat(f, (a + [s[p]]) + b + [s[q]], c);
    FilterAppend(f, (a + [s[p]]) + b, s[q]);
    FilterConcat(f, a + [s[p]], b);
    FilterAppend(f, a, s[p]);
    i := |Filter(f, a)|;
    j := |Filter(f, (a + [s[p]]) + b)|;
  }

  lemma FilterNone<T>(p: T -> bool, s: seq<T>)
    requires forall x :: x in s ==> !p(x)
    ensures Filter(p, s) == []
  {
  }

  /** JavaScript's `s.slice(-n)` for a positive n. */
  function LastN<T>(s: seq<T>, n: nat): seq<T> {
    if |s| <= n then s else s[|s| - n..]
  }

  predicate IsSuffix<T(==)>(a: seq<T>, b: seq<T>) {
    |a| <= |b| && b[|b| - |a|..] == a
  }

  predicate IsPrefix<T(==)>(a: seq<T>, b: seq<T>) {
    |a| <= |b| && b[..|a|] == a
  }

  lemma PrefixElement<T>(a: seq<T>, b: seq<T>, i: nat)
    requires IsPrefix(a, b) && i < |a|
    ensures b[i] in a
  {
    assert b[i] == a[i];
  }

  predicate NoDuplicates<T(==)>(s: seq<T>) {
    forall i, j :: 0 <= i < j < |s| ==> s[i] != s[j]
  }

  lemma NoDuplicatesAppend<T>(s: seq<T>, x: T)
    requires NoDuplicates(s) && x !in s
    ensures NoDuplicates(s + [x])
  {
  }

  function Take<T>(s: seq<T>, n: nat): seq<T> {
    if |s| <= n then s else s[..n]
  }

  lemma TakeFull<T>(a: seq<T>, b: seq<T>, n: nat)
    requires |Take(a, n)| == n
    ensures Take(a + b, n) == Take(a, n)
  {
  }

  /** Filtering element by element alike keeps the same positions. */
  lemma {:induction false} FilterAlike<A, B>(p: A -> bool, q: B -> bool, a: seq<A>, b: seq<B>)
    requires |a| == |b| && forall i :: 0 <= i < |a| ==> (p(a[i]) <==> q(b[i]))
    ensures |Filter(p, a)| == |Filter(q, b)|
  {
    if a != [] {
      FilterAlike(p, q, a[1..], b[1..]);
    }
  }

  lemma FilterTake<T>(p: T -> bool, s: seq<T>, n: nat)
    ensures IsPrefix(Filter(p, Take(s, n)), Filter(p, s))
  {
    var rest := s[|Take(s, n)|..];
    assert s == Take(s, n) + rest;
    FilterConcat(p, Take(s, n), rest);
  }

  lemma FilterTwice<T>(p: T -> bool, q: T -> bool, s: seq<T>)
    ensures Filter(p, Filter(q, s)) == Filter(q, Filter(p, s))
  {
    if s != [] {
      FilterTwice(p, q, s[1..]);
      FilterConcat(p, if q(s[0]) then [s[0]] else [], Filter(q, s[1..]));
      FilterConcat(q, if p(s[0]) then [s[0]] else [], Filter(p, s[1..]));
    }
  }

  lemma {:induction false} FilterBoth<T>(p: T -> bool, q: T -> bool, both: T -> bool, s: seq<T>)
    requires forall x :: both(x) <==> p(x) && q(x)
    ensures Filter(p, Filter(q, s)) == Filter(both, s)
  {
    if s != [] {
      FilterBoth(p, q, both, s[1..]);
      FilterConcat(p, if q(s[0]) then [s[0]] else [], Filter(q, s[1..]));
    }
  }

  lemma FilterAll<T>(p: T -> bool, s: seq<T>)
    requires forall x :: x in s ==> p(x)
    ensures Filter(p, s) == s
  {
  }

  /** Two duplicate-free sequences with the same elements have the same length. */
  lemma {:induction false} SameLength<T>(a: seq<T>, b: seq<T>)
    requires NoDuplicates(a) && NoDuplicates(b)
    requires forall x :: x in a <==> x in b
    ensures |a| == |b|
  {
    Cardinality(a);
    Cardinality(b);
    assert (set x | x in a) == (set x | x in b);
  }

  lemma Cardinality<T>(s: seq<T>)
    requires NoDuplicates(s)
    ensures |set x | x in s| == |s|
  {
    if s != [] {
      Cardinality(s[1..]);
      assert (set x | x in s) == {s[0]} + set x | x in s[1..];
      assert s[0] !in s[1..];
    }
  }

  function MoveToFront<T>(s: seq<T>, i: nat): seq<T>
    requires i < |s|
  {
    [s[i]] + s[..i] + s[i + 1..]
  }

  lemma MovedIsPermuted<T>(s: seq<T>, i: nat)
    requires i < |s|
    ensures multiset(MoveToFront(s, i)) == multiset(s)
  {
    assert s == s[..i] + [s[i]] + s[i + 1..];
  }

  lemma {:induction false} SameElements<T>(a: seq<T>, b: seq<T>)
    requires multiset(a) == multiset(b)
    ensures forall x :: x in a <==> x in b
  {
    forall x ensures x in a <==> x in b {
      assert x in a <==> x in multiset(a);
      assert x in b <==> x in multiset(b);
    }
  }
}
