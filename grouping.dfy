/**
 Group-by-and-sum over sales, for any grouping key (the sale's date for the
 trend view, its category for the category view).

 `AmountWhere(s, key, ks)` is the total amount of the sales of `s` whose key
 lies in `ks`; `GroupTotal` is the single-key case and `KeysOf` the set of
 keys that occur. The lemmas say that these depend only on the multiset of
 sales, and that summing the group totals over a duplicate-free list of keys
 covering every sale gives back the total amount.
 */
module Grouping {
  import opened Sales
  import opened Seqs

  function AmountWhere<K(==)>(s: seq<Sale>, key: Sale -> K, ks: set<K>): int
  {
    if s == [] then 0
    else AmountWhere(s[..|s| - 1], key, ks) + (if key(s[|s| - 1]) in ks then s[|s| - 1].amount else 0)
  }

  /** Total amount of the sales whose key is `k`. */
  function GroupTotal<K(==)>(s: seq<Sale>, key: Sale -> K, k: K): int
  {
    AmountWhere(s, key, {k})
  }

  /** The keys that occur in `s`. */
  function KeysOf<K(==)>(s: seq<Sale>, key: Sale -> K): set<K>
  {
    set x | x in s :: key(x)
  }

  /** Adding one sale adds its amount to the sum when its key is selected. */
  lemma AmountWhereSnoc<K>(s: seq<Sale>, x: Sale, key: Sale -> K, ks: set<K>)
    ensures AmountWhere(s + [x], key, ks) == AmountWhere(s, key, ks) + (if key(x) in ks then x.amount else 0)
  {
  }

  /** Adding one sale adds its key to the keys that occur. */
  lemma KeysOfSnoc<K>(s: seq<Sale>, x: Sale, key: Sale -> K)
    ensures KeysOf(s + [x], key) == KeysOf(s, key) + {key(x)}
  {
  }

  /** A key that never occurs has a zero total. */
  lemma {:induction false} GroupTotalAbsent<K>(s: seq<Sale>, key: Sale -> K, k: K)
    requires k !in KeysOf(s, key)
    ensures GroupTotal(s, key, k) == 0
  {
    if s != [] {
      var n := |s| - 1;
      assert s == s[..n] + [s[n]];
      KeysOfSnoc(s[..n], s[n], key);
      GroupTotalAbsent(s[..n], key, k);
    }
  }

  lemma {:induction false} AmountWhereAppend<K>(u: seq<Sale>, v: seq<Sale>, key: Sale -> K, ks: set<K>)
    ensures AmountWhere(u + v, key, ks) == AmountWhere(u, key, ks) + AmountWhere(v, key, ks)
    decreases |v|
  {
    if v == [] {
      assert u + v == u;
    } else {
      var v' := v[..|v| - 1];
      assert (u + v)[..|u + v| - 1] == u + v';
      AmountWhereAppend(u, v', key, ks);
    }
  }

  /** The grouped sums do not depend on the order of the sales. */
  lemma {:induction false} AmountWherePermutation<K>(a: seq<Sale>, b: seq<Sale>, key: Sale -> K, ks: set<K>)
    requires multiset(a) == multiset(b)
    ensures AmountWhere(a, key, ks) == AmountWhere(b, key, ks)
    decreases |a|
  {
    if a == [] {
      assert |b| == |multiset(b)| == 0;
    } else {
      var n := |a| - 1;
      var x := a[n];
      assert a == a[..n] + [x];
      assert x in multiset(b);
      var j :| 0 <= j < |b| && b[j] == x;
      var b' := b[..j] + b[j + 1..];
      assert b == b[..j] + [x] + b[j + 1..];
      assert multiset(a) == multiset(a[..n]) + multiset{x};
      assert multiset(b) == multiset(b[..j]) + multiset{x} + multiset(b[j + 1..]);
      assert multiset(b') == multiset(b[..j]) + multiset(b[j + 1..]);
      assert multiset(a[..n]) == multiset(b') by {
        forall y ensures multiset(a[..n])[y] == multiset(b')[y] {
          assert multiset(a)[y] == multiset(a[..n])[y] + multiset{x}[y];
          assert multiset(b)[y] == multiset(b[..j])[y] + multiset{x}[y] + multiset(b[j + 1..])[y];
        }
      }
      AmountWherePermutation(a[..n], b', key, ks);
      AmountWhereAppend(b[..j] + [x], b[j + 1..], key, ks);
      AmountWhereAppend(b[..j], [x], key, ks);
      AmountWhereAppend(b[..j], b[j + 1..], key, ks);
      assert [x][..0] == [];
    }
  }

  /** The keys that occur do not depend on the order of the sales. */
  lemma KeysOfPermutation<K>(a: seq<Sale>, b: seq<Sale>, key: Sale -> K)
    requires multiset(a) == multiset(b)
    ensures KeysOf(a, key) == KeysOf(b, key)
  {
    PermutationElems(a, b);
    assert forall x :: x in a <==> x in Elems(a);
    assert forall x :: x in b <==> x in Elems(b);
  }

  /** Sums over disjoint key sets add up. */
  lemma {:induction false} AmountWhereSplit<K>(s: seq<Sale>, key: Sale -> K, A: set<K>, B: set<K>)
    requires A !! B
    ensures AmountWhere(s, key, A + B) == AmountWhere(s, key, A) + AmountWhere(s, key, B)
  {
    if s != [] {
      AmountWhereSplit(s[..|s| - 1], key, A, B);
    }
  }

  /** A key set that covers every sale selects the whole amount. */
  lemma {:induction false} AmountWhereCovers<K>(s: seq<Sale>, key: Sale -> K, ks: set<K>)
    requires KeysOf(s, key) <= ks
    ensures AmountWhere(s, key, ks) == TotalAmount(s)
  {
    if s != [] {
      var init := s[..|s| - 1];
      assert KeysOf(init, key) <= KeysOf(s, key) by {
        forall x | x in init ensures x in s {
          var i :| 0 <= i < |init| && init[i] == x;
          assert s[i] == x;
        }
      }
      assert s[|s| - 1] in s;
      AmountWhereCovers(init, key, ks);
    }
  }

  /**
   When `totals` lists, for each key of a duplicate-free list `ks`, the group
   total of that key, the totals add up to the amount of the sales whose key
   is in `ks`.
   */
  lemma {:induction false} SumOfGroupTotalsWhere<K>(ks: seq<K>, totals: seq<int>, s: seq<Sale>, key: Sale -> K)
    requires Distinct(ks) && |totals| == |ks|
    requires forall i :: 0 <= i < |ks| ==> totals[i] == GroupTotal(s, key, ks[i])
    ensures Sum(totals) == AmountWhere(s, key, Elems(ks))
  {
    if ks == [] {
      assert Elems(ks) == {};
      AmountWhereNone(s, key);
    } else {
      var n := |ks| - 1;
      SumOfGroupTotalsWhere(ks[..n], totals[..n], s, key);
      assert ks == ks[..n] + [ks[n]];
      assert Elems(ks) == Elems(ks[..n]) + {ks[n]};
      assert ks[n] !in Elems(ks[..n]);
      AmountWhereSplit(s, key, Elems(ks[..n]), {ks[n]});
    }
  }

  lemma {:induction false} AmountWhereNone<K>(s: seq<Sale>, key: Sale -> K)
    ensures AmountWhere(s, key, {}) == 0
  {
    if s != [] {
      AmountWhereNone(s[..|s| - 1], key);
    }
  }

  /**
   Conservation: group totals over a duplicate-free key list that covers
   every sale add up to the total amount of the sales.
   */
  lemma SumOfGroupTotals<K>(ks: seq<K>, totals: seq<int>, s: seq<Sale>, key: Sale -> K)
    requires Distinct(ks) && |totals| == |ks|
    requires forall i :: 0 <= i < |ks| ==> totals[i] == GroupTotal(s, key, ks[i])
    requires KeysOf(s, key) <= Elems(ks)
    ensures Sum(totals) == TotalAmount(s)
  {
    SumOfGroupTotalsWhere(ks, totals, s, key);
    AmountWhereCovers(s, key, Elems(ks));
  }
}
