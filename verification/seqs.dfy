/** The array idioms the pages use, as pure functions on sequences:
    `filter`, `filter(...).length`, `reduce` sums, `slice(0, n)`, grouping
    into an object keyed by a field (`acc[k] = (acc[k] || 0) + v`) followed by
    `Object.entries`, and a stable comparison sort. */
module Seqs {

  function Filter<T(!new)>(s: seq<T>, p: T -> bool): (r: seq<T>)
    ensures |r| <= |s|
    ensures forall x :: x in r <==> x in s && p(x)
  {
    if |s| == 0 then [] else (if p(s[0]) then [s[0]] else []) + Filter(s[1..], p)
  }

  /** `s.reduce((sum, x) => sum + f(x), 0)`. */
  function Sum<T>(s: seq<T>, f: T -> real): real {
    if |s| == 0 then 0.0 else f(s[0]) + Sum(s[1..], f)
  }

  /** `s.slice(0, n)`. */
  function Take<T>(s: seq<T>, n: nat): (r: seq<T>)
    ensures |r| <= n && |r| <= |s|
    ensures r == s[..|r|]
    ensures |s| <= n ==> r == s
  {
    if |s| <= n then s else s[..n]
  }

  lemma {:induction false} SumNonNegative<T>(s: seq<T>, f: T -> real)
    requires forall x :: x in s ==> f(x) >= 0.0
    ensures Sum(s, f) >= 0.0
  {
    if |s| > 0 {
      SumNonNegative(s[1..], f);
    }
  }

  /** Two filters that never both accept an element count at most the whole. */
  lemma {:induction false} CountDisjoint<T(!new)>(s: seq<T>, p: T -> bool, q: T -> bool)
    requires forall x :: x in s ==> !(p(x) && q(x))
    ensures |Filter(s, p)| + |Filter(s, q)| <= |s|
  {
    if |s| > 0 {
      CountDisjoint(s[1..], p, q);
    }
  }

  /** A weaker filter keeps at least as many elements. */
  lemma {:induction false} CountMonotone<T(!new)>(s: seq<T>, p: T -> bool, q: T -> bool)
    requires forall x :: x in s && p(x) ==> q(x)
    ensures |Filter(s, p)| <= |Filter(s, q)|
  {
    if |s| > 0 {
      CountMonotone(s[1..], p, q);
    }
  }

  /** Over non-negative values, two disjoint filters sum to at most the total. */
  lemma {:induction false} SumDisjoint<T(!new)>(s: seq<T>, f: T -> real, p: T -> bool, q: T -> bool)
    requires forall x :: x in s ==> !(p(x) && q(x)) && f(x) >= 0.0
    ensures Sum(Filter(s, p), f) + Sum(Filter(s, q), f) <= Sum(s, f)
  {
    if |s| > 0 {
      SumDisjoint(s[1..], f, p, q);
      assert Filter(s, p) == (if p(s[0]) then [s[0]] else []) + Filter(s[1..], p);
      assert Filter(s, q) == (if q(s[0]) then [s[0]] else []) + Filter(s[1..], q);
      SumConcat((if p(s[0]) then [s[0]] else []), Filter(s[1..], p), f);
      SumConcat((if q(s[0]) then [s[0]] else []), Filter(s[1..], q), f);
    }
  }

  /** Over non-negative values, a weaker filter sums to at least as much. */
  lemma {:induction false} SumMonotone<T(!new)>(s: seq<T>, f: T -> real, p: T -> bool, q: T -> bool)
    requires forall x :: x in s ==> (p(x) ==> q(x)) && f(x) >= 0.0
    ensures Sum(Filter(s, p), f) <= Sum(Filter(s, q), f)
  {
    if |s| > 0 {
      SumMonotone(s[1..], f, p, q);
      SumConcat((if p(s[0]) then [s[0]] else []), Filter(s[1..], p), f);
      SumConcat((if q(s[0]) then [s[0]] else []), Filter(s[1..], q), f);
    }
  }

  /** Replacing one element moves the sum by the change in that element's value. */
  lemma {:induction false} SumUpdate<T>(s: seq<T>, k: nat, x: T, f: T -> real)
    requires k < |s|
    ensures Sum(s[k := x], f) == Sum(s, f) - f(s[k]) + f(x)
  {
    if k > 0 {
      assert s[k := x][1..] == s[1..][k - 1 := x];
      SumUpdate(s[1..], k - 1, x, f);
    } else {
      assert s[k := x][1..] == s[1..];
    }
  }

  lemma {:induction false} SumConcat<T>(a: seq<T>, b: seq<T>, f: T -> real)
    ensures Sum(a + b, f) == Sum(a, f) + Sum(b, f)
  {
    if |a| > 0 {
      assert (a + b)[1..] == a[1..] + b;
      SumConcat(a[1..], b, f);
    } else {
      assert a + b == b;
    }
  }

  /** Summing from the back gives the same total as the left-to-right `reduce`. */
  lemma SumSnoc<T>(s: seq<T>, x: T, f: T -> real)
    ensures Sum(s + [x], f) == Sum(s, f) + f(x)
  {
    SumConcat(s, [x], f);
  }

  /** `s.filter(x => x === v).length`. */
  function CountEq<T(==)>(s: seq<T>, v: T): (r: nat)
    ensures r <= |s|
  {
    if |s| == 0 then 0 else (if s[0] == v then 1 else 0) + CountEq(s[1..], v)
  }

  /** The counts of the values `vs`, added up. */
  function SumCounts<T(==)>(s: seq<T>, vs: seq<T>): nat {
    if |vs| == 0 then 0 else CountEq(s, vs[0]) + SumCounts(s, vs[1..])
  }

  predicate Distinct<T(==)>(vs: seq<T>) {
    forall i, j :: 0 <= i < j < |vs| ==> vs[i] != vs[j]
  }

  lemma {:induction false} SumCountsStep<T>(s: seq<T>, vs: seq<T>)
    requires |s| > 0 && Distinct(vs)
    ensures SumCounts(s, vs) == SumCounts(s[1..], vs) + (if s[0] in vs then 1 else 0)
  {
    if |vs| > 0 {
      assert Distinct(vs[1..]) by {
        forall i, j | 0 <= i < j < |vs| - 1 ensures vs[1..][i] != vs[1..][j] {
          assert vs[1..][i] == vs[i + 1] && vs[1..][j] == vs[j + 1];
        }
      }
      SumCountsStep(s, vs[1..]);
      if s[0] == vs[0] {
        assert s[0] !in vs[1..] by {
          forall j | 0 <= j < |vs| - 1 ensures vs[1..][j] != vs[0] {
            assert vs[1..][j] == vs[j + 1];
          }
        }
      }
      assert s[0] in vs <==> s[0] == vs[0] || s[0] in vs[1..];
    }
  }

  /** Counts of distinct values never add up to more than the whole. */
  lemma {:induction false} SumCountsBounded<T>(s: seq<T>, vs: seq<T>)
    requires Distinct(vs)
    ensures SumCounts(s, vs) <= |s|
  {
    if |s| == 0 {
      SumCountsOfEmpty(s, vs);
    } else {
      SumCountsStep(s, vs);
      SumCountsBounded(s[1..], vs);
    }
  }

  lemma {:induction false} SumCountsOfEmpty<T>(s: seq<T>, vs: seq<T>)
    requires |s| == 0
    ensures SumCounts(s, vs) == 0
  {
    if |vs| > 0 {
      SumCountsOfEmpty(s, vs[1..]);
    }
  }

  /** Keeping every element keeps the sequence. */
  lemma {:induction false} FilterAll<T(!new)>(s: seq<T>, p: T -> bool)
    requires forall x :: x in s ==> p(x)
    ensures Filter(s, p) == s
  {
    if |s| > 0 {
      FilterAll(s[1..], p);
      assert s == [s[0]] + s[1..];
    }
  }

  /** Keeping no element leaves nothing. */
  lemma {:induction false} FilterNone<T(!new)>(s: seq<T>, p: T -> bool)
    requires forall x :: x in s ==> !p(x)
    ensures Filter(s, p) == []
  {
    if |s| > 0 {
      assert s[0] in s;
      FilterNone(s[1..], p);
    }
  }

  /** Filtering a concatenation filters each part. */
  /** Filtering depends only on which elements the predicate keeps. */
  lemma {:induction false} FilterSame<T(!new)>(s: seq<T>, p: T -> bool, q: T -> bool)
    requires forall x :: x in s ==> p(x) == q(x)
    ensures Filter(s, p) == Filter(s, q)
  {
    if |s| > 0 {
      assert s[0] in s;
      FilterSame(s[1..], p, q);
    }
  }

  /** A filter keeps nothing exactly when no element qualifies, and keeps
      everything exactly when every element does. */
  lemma {:induction false} FilterCountExtremes<T(!new)>(s: seq<T>, p: T -> bool)
    ensures |Filter(s, p)| == 0 <==> forall x :: x in s ==> !p(x)
    ensures |Filter(s, p)| == |s| <==> forall x :: x in s ==> p(x)
  {
    if |s| > 0 {
      FilterCountExtremes(s[1..], p);
      assert s == [s[0]] + s[1..];
      assert forall x :: x in s <==> x == s[0] || x in s[1..];
    }
  }

  lemma {:induction false} FilterConcat<T(!new)>(a: seq<T>, b: seq<T>, p: T -> bool)
    ensures Filter(a + b, p) == Filter(a, p) + Filter(b, p)
  {
    if |a| > 0 {
      assert (a + b)[1..] == a[1..] + b;
      FilterConcat(a[1..], b, p);
    } else {
      assert a + b == b;
    }
  }

  // ---------------------------------------------------------------------
  // Grouping keyed values: `acc[k] = (acc[k] || 0) + v`, then `Object.entries`.
  // ---------------------------------------------------------------------

  function Keys<K, V>(s: seq<(K, V)>): set<K> {
    set i | 0 <= i < |s| :: s[i].0
  }

  /** Replacing an entry by one with the same key keeps the key set. */
  lemma KeysUpdateSameKey<K, V>(s: seq<(K, V)>, i: nat, e: (K, V))
    requires i < |s| && s[i].0 == e.0
    ensures Keys(s[i := e]) == Keys(s)
  {
    var r := s[i := e];
    forall k ensures k in Keys(r) <==> k in Keys(s) {
      if k in Keys(s) {
        var j :| 0 <= j < |s| && s[j].0 == k;
        assert r[j].0 == k;
      }
      if k in Keys(r) {
        var j :| 0 <= j < |r| && r[j].0 == k;
        assert s[j].0 == k;
      }
    }
  }

  predicate DistinctKeys<K(==), V>(s: seq<(K, V)>) {
    forall i, j :: 0 <= i < j < |s| ==> s[i].0 != s[j].0
  }

  /** The total of the values filed under key `k`. */
  function SumOfKey<K(==)>(xs: seq<(K, real)>, k: K): real {
    if |xs| == 0 then 0.0
    else SumOfKey(xs[..|xs| - 1], k) + (if xs[|xs| - 1].0 == k then xs[|xs| - 1].1 else 0.0)
  }

  function SumValues<K>(xs: seq<(K, real)>): real {
    if |xs| == 0 then 0.0 else SumValues(xs[..|xs| - 1]) + xs[|xs| - 1].1
  }

  /** Position of key `k` in `acc`, or `|acc|` when it is absent. */
  function IndexOfKey<K(==), V>(acc: seq<(K, V)>, k: K): (i: nat)
    ensures i <= |acc|
    ensures i < |acc| ==> acc[i].0 == k
    ensures i == |acc| ==> k !in Keys(acc)
  {
    if |acc| == 0 then 0
    else if acc[0].0 == k then 0
    else 1 + IndexOfKey(acc[1..], k)
  }

  /** One step of the reduction: add `e`'s value to its key's entry, or append a new entry. */
  function AddTo<K(==)>(acc: seq<(K, real)>, e: (K, real)): seq<(K, real)> {
    var i := IndexOfKey(acc, e.0);
    if i == |acc| then acc + [e] else acc[i := (e.0, acc[i].1 + e.1)]
  }

  lemma KeysSnoc<K, V>(s: seq<(K, V)>, e: (K, V))
    ensures Keys(s + [e]) == Keys(s) + {e.0}
  {
    var t := s + [e];
    forall k ensures k in Keys(t) <==> k in Keys(s) + {e.0} {
      if k in Keys(s) {
        var j :| 0 <= j < |s| && s[j].0 == k;
        assert t[j].0 == k;
      }
      if k == e.0 {
        assert t[|s|].0 == k;
      }
      if k in Keys(t) {
        var j :| 0 <= j < |t| && t[j].0 == k;
        if j < |s| {
          assert s[j].0 == k;
        }
      }
    }
  }

  /** A key that never occurs has nothing filed under it. */
  lemma {:induction false} SumOfAbsentKey<K>(xs: seq<(K, real)>, k: K)
    requires k !in Keys(xs)
    ensures SumOfKey(xs, k) == 0.0
  {
    if |xs| > 0 {
      var n := |xs| - 1;
      assert xs == xs[..n] + [xs[n]];
      KeysSnoc(xs[..n], xs[n]);
      SumOfAbsentKey(xs[..n], k);
    }
  }

  /** The object built by the reduction, as its entries in first-appearance order. */
  function GroupSum<K(==,!new)>(xs: seq<(K, real)>): (r: seq<(K, real)>)
    ensures DistinctKeys(r)
    ensures Keys(r) == Keys(xs)
    ensures forall i :: 0 <= i < |r| ==> r[i].1 == SumOfKey(xs, r[i].0)
  {
    if |xs| == 0 then []
    else
      var pre := xs[..|xs| - 1];
      var acc := GroupSum(pre);
      var e := xs[|xs| - 1];
      var r := AddTo(acc, e);
      assert xs == pre + [e];
      KeysSnoc(pre, e);
      assert forall k :: SumOfKey(xs, k) == SumOfKey(pre, k) + (if e.0 == k then e.1 else 0.0);
      var i := IndexOfKey(acc, e.0);
      if i == |acc| then
        KeysSnoc(acc, e);
        SumOfAbsentKey(pre, e.0);
        assert forall j :: 0 <= j < |acc| ==> r[j] == acc[j] && r[j].0 != e.0;
        r
      else
        assert forall j :: 0 <= j < |acc| && j != i ==> r[j] == acc[j] && r[j].0 != e.0;
        assert Keys(r) == Keys(acc) by {
          forall k ensures k in Keys(r) <==> k in Keys(acc) {
            if k in Keys(acc) {
              var j :| 0 <= j < |acc| && acc[j].0 == k;
              assert r[j].0 == k;
            }
            if k in Keys(r) {
              var j :| 0 <= j < |r| && r[j].0 == k;
              assert acc[j].0 == k;
            }
          }
        }
        r
  }

  lemma {:induction false} SumValuesUpdate<K>(s: seq<(K, real)>, i: nat, e: (K, real))
    requires i < |s|
    ensures SumValues(s[i := e]) == SumValues(s) - s[i].1 + e.1
  {
    var n := |s| - 1;
    if i < n {
      assert s[i := e][..n] == s[..n][i := e];
      SumValuesUpdate(s[..n], i, e);
    } else {
      assert s[i := e][..n] == s[..n];
    }
  }

  /** Grouping neither loses nor invents any amount. */
  lemma {:induction false} GroupSumPreservesTotal<K(!new)>(xs: seq<(K, real)>)
    ensures SumValues(GroupSum(xs)) == SumValues(xs)
  {
    if |xs| > 0 {
      var acc := GroupSum(xs[..|xs| - 1]);
      var e := xs[|xs| - 1];
      GroupSumPreservesTotal(xs[..|xs| - 1]);
      var i := IndexOfKey(acc, e.0);
      if i == |acc| {
        assert (acc + [e])[..|acc|] == acc;
      } else {
        SumValuesUpdate(acc, i, (e.0, acc[i].1 + e.1));
      }
    }
  }

  // ---------------------------------------------------------------------
  // Stable sorting by a comparison.
  // ---------------------------------------------------------------------

  /** `before(a, b)`: `a` must be placed ahead of `b`. A strict weak order is what
      a consistent `Array.prototype.sort` comparator describes. */
  ghost predicate StrictWeakOrder<T(!new)>(before: (T, T) -> bool) {
    && (forall a, b :: before(a, b) ==> !before(b, a))
    && (forall a, b, c :: !before(a, b) && !before(b, c) ==> !before(a, c))
  }

  /** No element is required to come ahead of one placed before it. */
  predicate SortedBy<T>(s: seq<T>, before: (T, T) -> bool) {
    forall i, j :: 0 <= i < j < |s| ==> !before(s[j], s[i])
  }

  /** Place `x` ahead of the first element that does not have to precede it. */
  function Insert<T>(x: T, s: seq<T>, before: (T, T) -> bool): (r: seq<T>)
    ensures multiset(r) == multiset(s) + multiset{x}
    ensures |r| == |s| + 1
  {
    if |s| == 0 then [x]
    else
      assert s == [s[0]] + s[1..];
      if before(s[0], x) then [s[0]] + Insert(x, s[1..], before) else [x] + s
  }

  lemma {:induction false} InsertSorted<T(!new)>(x: T, s: seq<T>, before: (T, T) -> bool)
    requires StrictWeakOrder(before) && SortedBy(s, before)
    ensures SortedBy(Insert(x, s, before), before)
  {
    if |s| > 0 {
      if before(s[0], x) {
        var rest := Insert(x, s[1..], before);
        InsertSorted(x, s[1..], before);
        forall y | y in rest ensures !before(y, s[0]) {
          assert y in multiset(rest);
          if y != x {
            assert y in multiset(s[1..]);
            var j :| 0 <= j < |s[1..]| && s[1..][j] == y;
            assert s[j + 1] == y;
          }
        }
        var r := [s[0]] + rest;
        forall i, j | 0 <= i < j < |r| ensures !before(r[j], r[i]) {
          if i > 0 {
            assert r[j] == rest[j - 1] && r[i] == rest[i - 1];
          } else {
            assert r[j] in rest;
          }
        }
      } else {
        var r := [x] + s;
        forall i, j | 0 <= i < j < |r| ensures !before(r[j], r[i]) {
          if i > 0 {
            assert r[j] == s[j - 1] && r[i] == s[i - 1];
          } else if j > 1 {
            assert !before(s[j - 1], s[0]);
          }
        }
      }
    }
  }

  /** Stable insertion sort. */
  function SortBy<T>(s: seq<T>, before: (T, T) -> bool): (r: seq<T>)
    ensures multiset(r) == multiset(s)
    ensures |r| == |s|
  {
    if |s| == 0 then []
    else
      assert s == [s[0]] + s[1..];
      Insert(s[0], SortBy(s[1..], before), before)
  }

  lemma {:induction false} SortBySorted<T(!new)>(s: seq<T>, before: (T, T) -> bool)
    requires StrictWeakOrder(before)
    ensures SortedBy(SortBy(s, before), before)
  {
    if |s| > 0 {
      SortBySorted(s[1..], before);
      InsertSorted(s[0], SortBy(s[1..], before), before);
    }
  }

  /** Sorting keeps exactly the elements it was given. */
  lemma SortByMembers<T(!new)>(s: seq<T>, before: (T, T) -> bool)
    ensures forall x :: x in SortBy(s, before) <==> x in s
  {
    var r := SortBy(s, before);
    assert forall x :: x in r <==> x in multiset(r);
    assert forall x :: x in s <==> x in multiset(s);
  }

  /** Rearranging entries keeps the same keys. */
  lemma KeysOfPermutation<K(!new), V(!new)>(a: seq<(K, V)>, b: seq<(K, V)>)
    requires multiset(a) == multiset(b)
    ensures Keys(a) == Keys(b)
  {
    forall k ensures k in Keys(a) ==> k in Keys(b) {
      if k in Keys(a) {
        var i :| 0 <= i < |a| && a[i].0 == k;
        assert a[i] in multiset(b);
        var j :| 0 <= j < |b| && b[j] == a[i];
      }
    }
    forall k ensures k in Keys(b) ==> k in Keys(a) {
      if k in Keys(b) {
        var j :| 0 <= j < |b| && b[j].0 == k;
        assert b[j] in multiset(a);
        var i :| 0 <= i < |a| && a[i] == b[j];
      }
    }
  }

  lemma {:induction false} InsertDistinct<K(!new), V(!new)>(x: (K, V), s: seq<(K, V)>, before: ((K, V), (K, V)) -> bool)
    requires DistinctKeys(s) && x.0 !in Keys(s)
    ensures DistinctKeys(Insert(x, s, before))
  {
    if |s| > 0 {
      assert s[0].0 in Keys(s);
      if before(s[0], x) {
        assert Keys(s[1..]) <= Keys(s) by {
          forall j | 0 <= j < |s| - 1 ensures s[1..][j].0 in Keys(s) {
            assert s[1..][j] == s[j + 1];
          }
        }
        InsertDistinct(x, s[1..], before);
        var rest := Insert(x, s[1..], before);
        KeysOfPermutation(rest, s[1..] + [x]);
        KeysSnoc(s[1..], x);
        assert s[0].0 !in Keys(s[1..]) by {
          forall j | 0 <= j < |s| - 1 ensures s[1..][j].0 != s[0].0 {
            assert s[1..][j] == s[j + 1];
          }
        }
        forall j | 0 <= j < |rest| ensures rest[j].0 != s[0].0 {
          assert rest[j].0 in Keys(rest);
        }
      } else {
        forall j | 0 <= j < |s| ensures s[j].0 != x.0 {
          assert s[j].0 in Keys(s);
        }
      }
    }
  }

  /** Sorting entries with distinct keys leaves the keys distinct. */
  lemma {:induction false} SortByDistinct<K(!new), V(!new)>(s: seq<(K, V)>, before: ((K, V), (K, V)) -> bool)
    requires DistinctKeys(s)
    ensures DistinctKeys(SortBy(s, before))
  {
    if |s| > 0 {
      assert DistinctKeys(s[1..]) by {
        forall i, j | 0 <= i < j < |s| - 1 ensures s[1..][i].0 != s[1..][j].0 {
          assert s[1..][i] == s[i + 1] && s[1..][j] == s[j + 1];
        }
      }
      SortByDistinct(s[1..], before);
      var rest := SortBy(s[1..], before);
      KeysOfPermutation(rest, s[1..]);
      assert s[0].0 !in Keys(s[1..]) by {
        forall j | 0 <= j < |s| - 1 ensures s[1..][j].0 != s[0].0 {
          assert s[1..][j] == s[j + 1];
        }
      }
      InsertDistinct(s[0], rest, before);
    }
  }
  lemma {:induction false} SumValuesCons<K>(x: (K, real), s: seq<(K, real)>)
    ensures SumValues([x] + s) == x.1 + SumValues(s)
  {
    if |s| > 0 {
      var n := |s| - 1;
      assert ([x] + s)[..|s|] == [x] + s[..n];
      SumValuesCons(x, s[..n]);
    } else {
      assert ([x] + s)[..0] == [];
    }
  }

  lemma {:induction false} InsertKeepsTotal<K>(x: (K, real), s: seq<(K, real)>, before: ((K, real), (K, real)) -> bool)
    ensures SumValues(Insert(x, s, before)) == SumValues(s) + x.1
  {
    if |s| > 0 {
      assert s == [s[0]] + s[1..];
      SumValuesCons(s[0], s[1..]);
      if before(s[0], x) {
        InsertKeepsTotal(x, s[1..], before);
        SumValuesCons(s[0], Insert(x, s[1..], before));
      } else {
        SumValuesCons(x, s);
      }
    } else {
      SumValuesCons(x, s);
    }
  }

  /** Sorting entries neither loses nor invents any amount. */
  lemma {:induction false} SortByKeepsTotal<K>(s: seq<(K, real)>, before: ((K, real), (K, real)) -> bool)
    ensures SumValues(SortBy(s, before)) == SumValues(s)
  {
    if |s| > 0 {
      assert s == [s[0]] + s[1..];
      SortByKeepsTotal(s[1..], before);
      InsertKeepsTotal(s[0], SortBy(s[1..], before), before);
      SumValuesCons(s[0], s[1..]);
    }
  }
}
