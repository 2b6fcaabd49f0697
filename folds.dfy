/**
  Sums and groupings over a sequence of records: what a pandas column sum
  and a `groupby(...).agg('sum')` compute, as folds. A missing value is
  read as 0, which is what a pandas sum does when it skips it.
 */
module Folds {
  import opened Base
  import opened Records

  // ----- the columns the reports add up -----

  function InvestmentOf(r: Record): real { r.investment }
  function RevenueOf(r: Record): real { r.revenue }
  function GrossProfitOf(r: Record): real { r.grossProfit }
  function NetProfitOf(r: Record): real { r.netProfit }
  function NetRoasOf(r: Record): real { r.netRoas }
  function CheckoutsOf(r: Record): real { r.checkouts as real }
  function PpSoldOf(r: Record): real { PpCount(r) as real }
  function SubjectOf(r: Record): string { r.subject }

  /** The sum of a column over the records, in order. */
  function Sum<T>(rs: seq<T>, f: T -> real): real
    decreases |rs|
  {
    if rs == [] then 0.0 else Sum(rs[..|rs| - 1], f) + f(rs[|rs| - 1])
  }

  lemma {:induction false} SumAppend<T>(a: seq<T>, b: seq<T>, f: T -> real)
    ensures Sum(a + b, f) == Sum(a, f) + Sum(b, f)
    decreases |b|
  {
    if b == [] {
      assert a + b == a;
    } else {
      var c := a + b;
      assert c[..|c| - 1] == a + b[..|b| - 1];
      SumAppend(a, b[..|b| - 1], f);
    }
  }

  /** The order of the records does not change a sum. */
  lemma {:induction false} SumPermutation<T>(a: seq<T>, b: seq<T>, f: T -> real)
    requires multiset(a) == multiset(b)
    ensures Sum(a, f) == Sum(b, f)
    decreases |a|
  {
    if a == [] {
      assert |b| == |multiset(b)| == 0;
    } else {
      var x := a[|a| - 1];
      assert x in multiset(b);
      var j :| 0 <= j < |b| && b[j] == x;
      RemoveOne(a, b, j);
      SumPermutation(a[..|a| - 1], b[..j] + b[j + 1..], f);
      SumRemove(b, j, f);
    }
  }

  /** Taking the same element out of two permutations of each other leaves
      two permutations of each other. */
  lemma RemoveOne<T>(a: seq<T>, b: seq<T>, j: nat)
    requires multiset(a) == multiset(b) && a != []
    requires j < |b| && b[j] == a[|a| - 1]
    ensures multiset(a[..|a| - 1]) == multiset(b[..j] + b[j + 1..])
  {
    var x := b[j];
    assert a == a[..|a| - 1] + [x];
    assert b == b[..j] + [x] + b[j + 1..];
    calc {
      multiset(a[..|a| - 1]) + multiset{x};
      multiset(a);
      multiset(b);
      multiset(b[..j]) + multiset{x} + multiset(b[j + 1..]);
      multiset(b[..j] + b[j + 1..]) + multiset{x};
    }
    assert multiset(a[..|a| - 1]) == multiset(a[..|a| - 1]) + multiset{x} - multiset{x};
    assert multiset(b[..j] + b[j + 1..]) == multiset(b[..j] + b[j + 1..]) + multiset{x} - multiset{x};
  }

  /** A sum is the sum without one of its records plus that record's value. */
  lemma SumRemove<T>(b: seq<T>, j: nat, f: T -> real)
    requires j < |b|
    ensures Sum(b, f) == Sum(b[..j] + b[j + 1..], f) + f(b[j])
  {
    var p, x, q := b[..j], b[j], b[j + 1..];
    var px := p + [x];
    assert b == px + q;
    SumAppend(px, q, f);
    SumAppend(p, [x], f);
    SumAppend(p, q, f);
    SumSingle(x, f);
  }

  lemma SumSingle<T>(x: T, f: T -> real)
    ensures Sum([x], f) == f(x)
  {
    assert [x][..0] == [];
  }

  /** A sum of terms that are never negative is 0 only when every term is. */
  lemma {:induction false} SumNonnegative<T>(rs: seq<T>, f: T -> real)
    requires forall i :: 0 <= i < |rs| ==> f(rs[i]) >= 0.0
    ensures Sum(rs, f) >= 0.0
    ensures Sum(rs, f) == 0.0 ==> forall i :: 0 <= i < |rs| ==> f(rs[i]) == 0.0
    decreases |rs|
  {
    if rs != [] {
      var init := rs[..|rs| - 1];
      assert forall i :: 0 <= i < |init| ==> init[i] == rs[i];
      SumNonnegative(init, f);
    }
  }

  /** A sum whose every term is 0. */
  lemma {:induction false} SumOfZeros<T>(rs: seq<T>, f: T -> real)
    requires forall i :: 0 <= i < |rs| ==> f(rs[i]) == 0.0
    ensures Sum(rs, f) == 0.0
    decreases |rs|
  {
    if rs != [] {
      var init := rs[..|rs| - 1];
      assert forall i :: 0 <= i < |init| ==> init[i] == rs[i];
      SumOfZeros(init, f);
    }
  }

  // ----- grouping -----

  /** The records of one group, in their original order: each record of
      the input with the key, as many times as it occurs there, and no
      other (see also `SelectAppend` for the order). */
  function Select<T(!new), K(==,!new)>(rs: seq<T>, key: T -> K, k: K): (g: seq<T>)
    ensures |g| <= |rs|
    ensures forall i :: 0 <= i < |g| ==> key(g[i]) == k && g[i] in rs
    ensures forall x {:trigger Occurrences(g, x)} :: Occurrences(g, x) == if key(x) == k then Occurrences(rs, x) else 0
    decreases |rs|
  {
    if rs == [] then []
    else
      var g := Select(rs[..|rs| - 1], key, k);
      SelectStep(g, rs, key, k);
      if key(rs[|rs| - 1]) == k then g + [rs[|rs| - 1]] else g
  }

  lemma SelectStep<T(!new), K(!new)>(g: seq<T>, rs: seq<T>, key: T -> K, k: K)
    requires rs != []
    requires forall x {:trigger Occurrences(g, x)} :: Occurrences(g, x) == if key(x) == k then Occurrences(rs[..|rs| - 1], x) else 0
    ensures var g' := if key(rs[|rs| - 1]) == k then g + [rs[|rs| - 1]] else g;
      forall x {:trigger Occurrences(g', x)} :: Occurrences(g', x) == if key(x) == k then Occurrences(rs, x) else 0
  {
    assert rs == rs[..|rs| - 1] + [rs[|rs| - 1]];
  }

  /** Selecting from a concatenation selects from each part in turn, so a
      group lists its records in input order. */
  lemma {:induction false} SelectAppend<T(!new), K(!new)>(a: seq<T>, b: seq<T>, key: T -> K, k: K)
    ensures Select(a + b, key, k) == Select(a, key, k) + Select(b, key, k)
    decreases |b|
  {
    if |b| == 0 {
      assert a + b == a;
    } else {
      var init := b[..|b| - 1];
      assert (a + b)[..|a + b| - 1] == a + init;
      SelectAppend(a, init, key, k);
    }
  }

  /** The group keys, each once, in order of first appearance. */
  function GroupKeys<T, K(==,!new)>(rs: seq<T>, key: T -> K): (ks: seq<K>)
    ensures Distinct(ks)
    ensures forall k :: k in ks <==> exists i :: 0 <= i < |rs| && key(rs[i]) == k
    decreases |rs|
  {
    if rs == [] then []
    else
      var ks := GroupKeys(rs[..|rs| - 1], key);
      var k := key(rs[|rs| - 1]);
      assert forall i :: 0 <= i < |rs| - 1 ==> rs[..|rs| - 1][i] == rs[i];
      if k in ks then ks
      else
        assert forall i, j :: 0 <= i < j < |ks + [k]| ==> (ks + [k])[i] != (ks + [k])[j] by {
          forall i, j | 0 <= i < j < |ks + [k]| ensures (ks + [k])[i] != (ks + [k])[j] {
            if j == |ks| { assert (ks + [k])[i] == ks[i]; }
          }
        }
        ks + [k]
  }

  /** A group's column total, for every group key in `ks`, added up. */
  function GroupTotals<T(!new), K(==,!new)>(rs: seq<T>, key: T -> K, ks: seq<K>, f: T -> real): real
    decreases |ks|
  {
    if ks == [] then 0.0
    else GroupTotals(rs, key, ks[..|ks| - 1], f) + Sum(Select(rs, key, ks[|ks| - 1]), f)
  }

  /** Grouping conserves totals: the group sums over all group keys add up
      to the sum over all records, nothing counted twice and nothing lost. */
  lemma GroupingConserves<T(!new), K(!new)>(rs: seq<T>, key: T -> K, f: T -> real)
    ensures GroupTotals(rs, key, GroupKeys(rs, key), f) == Sum(rs, f)
  {
    GroupingConservesOver(rs, key, GroupKeys(rs, key), f);
  }

  lemma {:induction false} GroupingConservesOver<T(!new), K(!new)>(rs: seq<T>, key: T -> K, ks: seq<K>, f: T -> real)
    requires Distinct(ks)
    requires forall i :: 0 <= i < |rs| ==> key(rs[i]) in ks
    ensures GroupTotals(rs, key, ks, f) == Sum(rs, f)
    decreases |rs|
  {
    if rs == [] {
      TotalsOfEmpty(key, ks, f);
    } else {
      var init, x := rs[..|rs| - 1], rs[|rs| - 1];
      assert forall i :: 0 <= i < |init| ==> init[i] == rs[i];
      GroupingConservesOver(init, key, ks, f);
      TotalsSnoc(init, x, key, ks, f);
      DropLastRow(rs);
      assert key(x) in ks;
    }
  }

  lemma DropLastRow<T>(rs: seq<T>)
    requires rs != []
    ensures rs == rs[..|rs| - 1] + [rs[|rs| - 1]]
  {
  }

  lemma {:induction false} TotalsOfEmpty<T(!new), K(!new)>(key: T -> K, ks: seq<K>, f: T -> real)
    ensures GroupTotals([], key, ks, f) == 0.0
    decreases |ks|
  {
    if ks != [] { TotalsOfEmpty(key, ks[..|ks| - 1], f); }
  }

  /** One more record adds its value to exactly one group's total. */
  lemma {:induction false} TotalsSnoc<T(!new), K(!new)>(rs: seq<T>, x: T, key: T -> K, ks: seq<K>, f: T -> real)
    requires Distinct(ks)
    ensures GroupTotals(rs + [x], key, ks, f) ==
      GroupTotals(rs, key, ks, f) + (if key(x) in ks then f(x) else 0.0)
    decreases |ks|
  {
    if ks != [] {
      var init, k := ks[..|ks| - 1], ks[|ks| - 1];
      DistinctInit(ks);
      TotalsSnoc(rs, x, key, init, f);
      SumSelectSnoc(rs, x, key, k, f);
      assert key(x) in ks <==> key(x) in init || key(x) == k;
    }
  }

  /** Dropping the last key keeps the keys distinct, and the last key is not
      among the others. */
  lemma DistinctInit<K>(ks: seq<K>)
    requires Distinct(ks) && ks != []
    ensures Distinct(ks[..|ks| - 1]) && ks[|ks| - 1] !in ks[..|ks| - 1]
  {
    var init := ks[..|ks| - 1];
    assert forall i :: 0 <= i < |init| ==> init[i] == ks[i];
  }

  /** One more record adds its value to its own group's sum only. */
  lemma SumSelectSnoc<T(!new), K(!new)>(rs: seq<T>, x: T, key: T -> K, k: K, f: T -> real)
    ensures Sum(Select(rs + [x], key, k), f) == Sum(Select(rs, key, k), f) + (if key(x) == k then f(x) else 0.0)
  {
    SelectAppend(rs, [x], key, k);
    assert [x][..0] == [];
    if key(x) == k {
      SumAppend(Select(rs, key, k), [x], f);
      SumSingle(x, f);
    }
  }
}
