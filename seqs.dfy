/**
 Sequence vocabulary shared by the views: sums, distinctness, ordering, and
 the ascending sort that the trend view applies to its dictionary keys.
 */
module Seqs {

  function Sum(xs: seq<int>): int
  {
    if xs == [] then 0 else Sum(xs[..|xs| - 1]) + xs[|xs| - 1]
  }

  function Elems<T>(s: seq<T>): set<T>
  {
    set x | x in s
  }

  /** Only the empty sequence has no elements. */
  lemma ElemsEmpty<T>(s: seq<T>)
    ensures Elems(s) == {} <==> s == []
  {
    if s != [] {
      assert s[0] in Elems(s);
    }
  }

  /** Permutations have the same elements. */
  lemma PermutationElems<T>(a: seq<T>, b: seq<T>)
    requires multiset(a) == multiset(b)
    ensures Elems(a) == Elems(b)
  {
    forall x ensures x in a <==> x in b {
      assert x in a <==> x in multiset(a);
      assert x in b <==> x in multiset(b);
    }
  }

  predicate Distinct<T(==)>(s: seq<T>)
  {
    forall i, j :: 0 <= i < j < |s| ==> s[i] != s[j]
  }

  predicate Ascending(s: seq<int>)
  {
    forall i, j :: 0 <= i < j < |s| ==> s[i] <= s[j]
  }

  predicate StrictlyAscending(s: seq<int>)
  {
    forall i, j :: 0 <= i < j < |s| ==> s[i] < s[j]
  }

  lemma StrictlyAscendingDistinct(s: seq<int>)
    requires StrictlyAscending(s)
    ensures Distinct(s)
  {
  }

  /** Inserts `x` into an ascending sequence, keeping it ascending. */
  function Insert(x: int, s: seq<int>): (r: seq<int>)
    requires Ascending(s)
    ensures Ascending(r)
    ensures multiset(r) == multiset(s) + multiset{x}
    ensures StrictlyAscending(s) && x !in s ==> StrictlyAscending(r)
  {
    if s == [] || x <= s[0] then
      ConsAscending(x, s);
      [x] + s
    else
      var rest := Insert(x, s[1..]);
      InsertStep(x, s, rest);
      [s[0]] + rest
  }

  /** The recursive case of `Insert`: `s[0]` stays in front of the insertion into the tail. */
  lemma InsertStep(x: int, s: seq<int>, rest: seq<int>)
    requires s != [] && s[0] < x && Ascending(s)
    requires Ascending(rest) && multiset(rest) == multiset(s[1..]) + multiset{x}
    requires StrictlyAscending(s[1..]) && x !in s[1..] ==> StrictlyAscending(rest)
    ensures Ascending([s[0]] + rest)
    ensures multiset([s[0]] + rest) == multiset(s) + multiset{x}
    ensures StrictlyAscending(s) && x !in s ==> StrictlyAscending([s[0]] + rest)
  {
    assert s == [s[0]] + s[1..];
    BoundedBelow(s[0], x, s[1..], rest);
    ConsAscending(s[0], rest);
  }

  /** Prepending a lower bound keeps a sequence ascending. */
  lemma ConsAscending(h: int, t: seq<int>)
    requires Ascending(t)
    requires forall i :: 0 <= i < |t| ==> h <= t[i]
    ensures Ascending([h] + t)
    ensures StrictlyAscending(t) && (forall i :: 0 <= i < |t| ==> h < t[i]) ==> StrictlyAscending([h] + t)
    ensures StrictlyAscending(t) && h !in t ==> StrictlyAscending([h] + t)
  {
  }

  /** Every element of a permutation of `t + [x]` is at least `h`, when `x` and `t` are. */
  lemma BoundedBelow(h: int, x: int, t: seq<int>, r: seq<int>)
    requires h < x
    requires forall i :: 0 <= i < |t| ==> h <= t[i]
    requires multiset(r) == multiset(t) + multiset{x}
    ensures forall i :: 0 <= i < |r| ==> h <= r[i]
    ensures (forall i :: 0 <= i < |t| ==> h < t[i]) ==> forall i :: 0 <= i < |r| ==> h < r[i]
  {
    forall i | 0 <= i < |r| ensures h <= r[i] && ((forall k :: 0 <= k < |t| ==> h < t[k]) ==> h < r[i]) {
      assert r[i] in multiset(r);
      if r[i] != x {
        assert r[i] in multiset(t);
        var k :| 0 <= k < |t| && t[k] == r[i];
      }
    }
  }

  /**
   Ascending sort of a sequence of integers: the result is ascending and a
   permutation of the input, and strictly ascending when the input has no
   duplicates.
   */
  function Sort(s: seq<int>): (r: seq<int>)
    ensures Ascending(r)
    ensures multiset(r) == multiset(s)
    ensures Distinct(s) ==> StrictlyAscending(r)
  {
    if s == [] then []
    else
      var rest := Sort(s[1..]);
      assert s == [s[0]] + s[1..];
      assert Distinct(s) ==> s[0] !in multiset(rest);
      Insert(s[0], rest)
  }

  /** A strictly ascending sequence is determined by its set of elements. */
  lemma {:induction false} StrictlyAscendingUnique(a: seq<int>, b: seq<int>)
    requires StrictlyAscending(a) && StrictlyAscending(b)
    requires Elems(a) == Elems(b)
    ensures a == b
  {
    if b != [] {
      assert b[0] in Elems(b);
    }
    if a != [] {
      assert a[0] in Elems(b);
      assert b != [];
      assert b[0] in Elems(a);
      assert a[0] == b[0];
      assert Elems(a[1..]) == Elems(b[1..]) by {
        forall y ensures y in Elems(a[1..]) <==> y in Elems(b[1..]) {
          assert a == [a[0]] + a[1..];
          assert b == [b[0]] + b[1..];
          if y in Elems(a[1..]) {
            assert y in Elems(b);
          }
          if y in Elems(b[1..]) {
            assert y in Elems(a);
          }
        }
      }
      StrictlyAscendingUnique(a[1..], b[1..]);
    }
  }

  /** A sequence without duplicates has as many elements as its set. */
  lemma {:induction false} DistinctCardinality<T>(s: seq<T>)
    requires Distinct(s)
    ensures |Elems(s)| == |s|
  {
    if s != [] {
      var init := s[..|s| - 1];
      DistinctCardinality(init);
      assert Elems(s) == Elems(init) + {s[|s| - 1]} by {
        assert s == init + [s[|s| - 1]];
      }
      assert s[|s| - 1] !in Elems(init);
    }
  }
}
