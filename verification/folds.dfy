/** The array combinators the pages use (`reduce`, `filter`, `find`, `map`,
    `sort`) and the group-by that a `forEach` into a JS `Map` performs. */
module Folds {
  import opened Wrappers

  // ---------------------------------------------------------------------
  // reduce((sum, x) => sum + f(x), 0)
  // ---------------------------------------------------------------------

  /** Left fold of `f` over `s` from 0, the shape of `s.reduce((sum, x) => sum + f(x), 0)`. */
  function Sum<T>(s: seq<T>, f: T -> real): real
    decreases |s|
  {
    if s == [] then 0.0 else Sum(s[..|s| - 1], f) + f(s[|s| - 1])
  }

  /** Summing a concatenation sums the parts. */
  lemma {:induction false} SumAppend<T>(s: seq<T>, t: seq<T>, f: T -> real)
    ensures Sum(s + t, f) == Sum(s, f) + Sum(t, f)
    decreases |t|
  {
    if t == [] {
      assert s + t == s;
    } else {
      var t' := t[..|t| - 1];
      assert (s + t)[..|s + t| - 1] == s + t';
      assert (s + t)[|s + t| - 1] == t[|t| - 1];
      SumAppend(s, t', f);
    }
  }

  /** Taking out the element at `j` takes its term out of the sum. */
  lemma SumRemove<T>(t: seq<T>, j: int, f: T -> real)
    requires 0 <= j < |t|
    ensures Sum(t, f) == Sum(t[..j] + t[j + 1..], f) + f(t[j])
  {
    var a, x, b := t[..j], t[j], t[j + 1..];
    assert t == (a + [x]) + b;
    SumAppend(a + [x], b, f);
    SumAppend(a, [x], f);
    assert [x][..0] == [];
    assert Sum([x], f) == f(x);
    SumAppend(a, b, f);
  }

  /** Taking out the element at `j` takes one occurrence of it out of the multiset. */
  lemma MultisetRemove<T>(t: seq<T>, j: int)
    requires 0 <= j < |t|
    ensures multiset(t[..j] + t[j + 1..]) == multiset(t) - multiset{t[j]}
  {
    assert t == t[..j] + [t[j]] + t[j + 1..];
    assert multiset(t) == multiset(t[..j]) + multiset{t[j]} + multiset(t[j + 1..]);
  }

  /** The sum does not depend on the order of the elements. */
  lemma {:induction false} SumPermutation<T>(s: seq<T>, t: seq<T>, f: T -> real)
    requires multiset(s) == multiset(t)
    ensures Sum(s, f) == Sum(t, f)
    decreases |s|
  {
    if s == [] {
      assert |t| == |multiset(t)| == 0;
    } else {
      var x := s[|s| - 1];
      var s' := s[..|s| - 1];
      assert s == s' + [x];
      assert multiset(s') == multiset(s) - multiset{x};
      assert x in multiset(t);
      var j :| 0 <= j < |t| && t[j] == x;
      MultisetRemove(t, j);
      SumPermutation(s', t[..j] + t[j + 1..], f);
      SumRemove(t, j, f);
    }
  }

  /** Pointwise smaller terms give a smaller sum. */
  lemma {:induction false} SumMonotone<T>(s: seq<T>, f: T -> real, g: T -> real)
    requires forall i :: 0 <= i < |s| ==> f(s[i]) <= g(s[i])
    ensures Sum(s, f) <= Sum(s, g)
    decreases |s|
  {
    if s != [] {
      SumMonotone(s[..|s| - 1], f, g);
    }
  }

  /** Terms that are never negative give a sum that is not negative. */
  lemma {:induction false} SumNonNegative<T>(s: seq<T>, f: T -> real)
    ensures (forall i :: 0 <= i < |s| ==> f(s[i]) >= 0.0) ==> Sum(s, f) >= 0.0
    decreases |s|
  {
    if s != [] {
      SumNonNegative(s[..|s| - 1], f);
    }
  }

  // ---------------------------------------------------------------------
  // filter, find, map
  // ---------------------------------------------------------------------

  /** `s.filter(p)`: the elements satisfying `p`, in their original order. */
  function Filter<T>(s: seq<T>, p: T -> bool): (r: seq<T>)
    ensures |r| <= |s|
    ensures forall x :: x in r ==> x in s && p(x)
    decreases |s|
  {
    if s == [] then []
    else Filter(s[..|s| - 1], p) + (if p(s[|s| - 1]) then [s[|s| - 1]] else [])
  }

  /** Every element of `s` that satisfies `p` is kept. */
  lemma {:induction false} FilterKeeps<T>(s: seq<T>, p: T -> bool, x: T)
    requires x in s && p(x)
    ensures x in Filter(s, p)
    decreases |s|
  {
    if x != s[|s| - 1] {
      assert s == s[..|s| - 1] + [s[|s| - 1]];
      FilterKeeps(s[..|s| - 1], p, x);
    }
  }

  /** The filter keeps exactly the elements that satisfy `p`. */
  lemma FilterMembership<T>(s: seq<T>, p: T -> bool)
    ensures forall x :: x in Filter(s, p) <==> x in s && p(x)
  {
    forall x | x in s && p(x) ensures x in Filter(s, p) {
      FilterKeeps(s, p, x);
    }
  }

  /** Filtering distributes over concatenation: the filter keeps the input order. */
  lemma {:induction false} FilterAppend<T>(s: seq<T>, t: seq<T>, p: T -> bool)
    ensures Filter(s + t, p) == Filter(s, p) + Filter(t, p)
    decreases |t|
  {
    if t == [] {
      assert s + t == s;
    } else {
      var t' := t[..|t| - 1];
      assert (s + t)[..|s + t| - 1] == s + t';
      assert (s + t)[|s + t| - 1] == t[|t| - 1];
      FilterAppend(s, t', p);
    }
  }

  /** A filter that every element passes returns its input unchanged. */
  lemma {:induction false} FilterAll<T>(s: seq<T>, p: T -> bool)
    requires forall i :: 0 <= i < |s| ==> p(s[i])
    ensures Filter(s, p) == s
    decreases |s|
  {
    if s != [] {
      FilterAll(s[..|s| - 1], p);
      assert s[..|s| - 1] + [s[|s| - 1]] == s;
    }
  }

  /** `s.filter(p).length`. */
  function Count<T>(s: seq<T>, p: T -> bool): nat {
    |Filter(s, p)|
  }

  /** `s.find(p)`: the first element satisfying `p`, or nothing. */
  function Find<T>(s: seq<T>, p: T -> bool): (r: Option<T>)
    ensures r.None? <==> forall i :: 0 <= i < |s| ==> !p(s[i])
    ensures r.Some? ==> exists i :: 0 <= i < |s| && s[i] == r.value && p(s[i]) && forall j :: 0 <= j < i ==> !p(s[j])
    decreases |s|
  {
    if s == [] then None
    else if p(s[0]) then Some(s[0])
    else
      var r := Find(s[1..], p);
      assert r.Some? ==> exists i :: 1 <= i < |s| && s[i] == r.value && p(s[i]) && forall j :: 0 <= j < i ==> !p(s[j]) by {
        if r.Some? {
          var i :| 0 <= i < |s[1..]| && s[1..][i] == r.value && p(s[1..][i]) && forall j :: 0 <= j < i ==> !p(s[1..][j]);
          assert s[i + 1] == r.value;
          forall j | 0 <= j < i + 1 ensures !p(s[j]) {
            if j > 0 { assert s[j] == s[1..][j - 1]; }
          }
        }
      }
      r
  }

  /** `s.map(f)`. */
  function Map<T, U>(s: seq<T>, f: T -> U): (r: seq<U>)
    ensures |r| == |s|
    ensures forall i :: 0 <= i < |s| ==> r[i] == f(s[i])
  {
    seq(|s|, i requires 0 <= i < |s| => f(s[i]))
  }

  /** Mapping distributes over concatenation. */
  lemma MapAppend<T, U>(s: seq<T>, t: seq<T>, f: T -> U)
    ensures Map(s + t, f) == Map(s, f) + Map(t, f)
  {
    var r := Map(s + t, f);
    var q := Map(s, f) + Map(t, f);
    forall i | 0 <= i < |r| ensures r[i] == q[i] {
      if i < |s| {
        assert (s + t)[i] == s[i];
      } else {
        assert (s + t)[i] == t[i - |s|];
      }
    }
  }

  /** `s.slice(0, n)`. */
  function Take<T>(s: seq<T>, n: nat): (r: seq<T>)
    ensures |r| == (if |s| < n then |s| else n)
    ensures r <= s
  {
    if |s| <= n then s else s[..n]
  }

  // ---------------------------------------------------------------------
  // Group-by: `forEach` into a JS Map keyed by `key`, summing `f`
  // ---------------------------------------------------------------------

  /** The keys of the JS Map after the loop: each distinct key once, in order of first appearance. */
  function Keys<T, K(==)>(s: seq<T>, key: T -> K): seq<K>
    decreases |s|
  {
    if s == [] then []
    else
      var ks := Keys(s[..|s| - 1], key);
      if key(s[|s| - 1]) in ks then ks else ks + [key(s[|s| - 1])]
  }

  /** The total the loop accumulates under key `k`: the sum of `f` over the elements whose key is `k`. */
  function Total<T, K(==)>(s: seq<T>, key: T -> K, k: K, f: T -> real): real
    decreases |s|
  {
    if s == [] then 0.0
    else Total(s[..|s| - 1], key, k, f) + (if key(s[|s| - 1]) == k then f(s[|s| - 1]) else 0.0)
  }

  /** One more element: its key is appended if new, and only its key's
      total grows. */
  lemma GroupSnoc<T, K>(s: seq<T>, x: T, key: T -> K, f: T -> real)
    ensures Keys(s + [x], key) == if key(x) in Keys(s, key) then Keys(s, key) else Keys(s, key) + [key(x)]
    ensures forall k :: Total(s + [x], key, k, f) == Total(s, key, k, f) + (if key(x) == k then f(x) else 0.0)
  {
    assert (s + [x])[..|s|] == s;
  }

  predicate Distinct<K(==)>(ks: seq<K>) {
    forall i, j :: 0 <= i < j < |ks| ==> ks[i] != ks[j]
  }

  /** A JS `Map` from keys to running totals: its keys in insertion order and the total under each. */
  datatype Groups<K> = Groups(order: seq<K>, totals: map<K, real>)

  /** `m.set(k, (m.get(k) || 0) + v)`: a new key goes last, a known key keeps its place. */
  function AddTo<K>(g: Groups<K>, k: K, v: real): Groups<K> {
    if k in g.totals then Groups(g.order, g.totals[k := g.totals[k] + v])
    else Groups(g.order + [k], g.totals[k := v])
  }

  /** The map after a `forEach` that adds `f(x)` under `key(x)` for every `x` of `s`. */
  function GroupSum<T, K>(s: seq<T>, key: T -> K, f: T -> real): Groups<K>
    decreases |s|
  {
    if s == [] then Groups([], map[]) else AddTo(GroupSum(s[..|s| - 1], key, f), key(s[|s| - 1]), f(s[|s| - 1]))
  }

  /** One more element is one more `AddTo`. */
  lemma GroupSumSnoc<T, K>(s: seq<T>, x: T, key: T -> K, f: T -> real)
    ensures GroupSum(s + [x], key, f) == AddTo(GroupSum(s, key, f), key(x), f(x))
  {
    assert (s + [x])[..|s|] == s;
  }

  /** The keys are distinct and are exactly the keys that occur. */
  lemma {:induction false} KeysSpec<T, K>(s: seq<T>, key: T -> K)
    ensures Distinct(Keys(s, key))
    ensures forall k :: k in Keys(s, key) <==> exists i :: 0 <= i < |s| && key(s[i]) == k
    decreases |s|
  {
    if s != [] {
      var s' := s[..|s| - 1];
      KeysSpec(s', key);
      forall k ensures k in Keys(s, key) <==> exists i :: 0 <= i < |s| && key(s[i]) == k {
        if k in Keys(s', key) {
          var i :| 0 <= i < |s'| && key(s'[i]) == k;
          assert key(s[i]) == k;
        }
        if exists i :: 0 <= i < |s| && key(s[i]) == k {
          var i :| 0 <= i < |s| && key(s[i]) == k;
          if i < |s'| { assert key(s'[i]) == k; }
        }
      }
    }
  }

  /** A key that never occurs has total 0. */
  lemma {:induction false} TotalAbsent<T, K>(s: seq<T>, key: T -> K, k: K, f: T -> real)
    requires k !in Keys(s, key)
    ensures Total(s, key, k, f) == 0.0
    decreases |s|
  {
    if s != [] {
      var s' := s[..|s| - 1];
      assert k !in Keys(s', key);
      TotalAbsent(s', key, k, f);
    }
  }

  /** Sum over a list of keys of their totals in `s`. */
  function SumTotals<T, K(==)>(ks: seq<K>, s: seq<T>, key: T -> K, f: T -> real): real
    decreases |ks|
  {
    if ks == [] then 0.0 else SumTotals(ks[..|ks| - 1], s, key, f) + Total(s, key, ks[|ks| - 1], f)
  }

  /** Adding one element changes only the total of its own key. */
  lemma {:induction false} SumTotalsStep<T, K>(ks: seq<K>, s: seq<T>, x: T, key: T -> K, f: T -> real)
    requires Distinct(ks)
    ensures SumTotals(ks, s + [x], key, f)
         == SumTotals(ks, s, key, f) + (if key(x) in ks then f(x) else 0.0)
    decreases |ks|
  {
    assert (s + [x])[..|s + [x]| - 1] == s;
    if ks != [] {
      var ks' := ks[..|ks| - 1];
      assert ks == ks' + [ks[|ks| - 1]];
      SumTotalsStep(ks', s, x, key, f);
    }
  }

  /** One more key adds its own total. */
  lemma SumTotalsSnoc<T, K>(ks: seq<K>, k: K, s: seq<T>, key: T -> K, f: T -> real)
    ensures SumTotals(ks + [k], s, key, f) == SumTotals(ks, s, key, f) + Total(s, key, k, f)
  {
    assert (ks + [k])[..|ks|] == ks;
  }

  /** The totals of all keys add up to the sum over every element: no element is lost or counted twice. */
  lemma {:induction false} SumOfTotals<T, K>(s: seq<T>, key: T -> K, f: T -> real)
    ensures SumTotals(Keys(s, key), s, key, f) == Sum(s, f)
    decreases |s|
  {
    if s != [] {
      var s' := s[..|s| - 1];
      var x := s[|s| - 1];
      assert s == s' + [x];
      var ks' := Keys(s', key);
      KeysSpec(s', key);
      SumOfTotals(s', key, f);
      SumTotalsStep(ks', s', x, key, f);
      if key(x) !in ks' {
        TotalAbsent(s', key, key(x), f);
        assert Keys(s, key) == ks' + [key(x)];
        SumTotalsSnoc(ks', key(x), s, key, f);
      }
    }
  }

  // ---------------------------------------------------------------------
  // A stable sort by a numeric rank (Array.prototype.sort is stable)
  // ---------------------------------------------------------------------

  predicate SortedBy<T>(s: seq<T>, rank: T -> real) {
    forall i, j :: 0 <= i < j < |s| ==> rank(s[i]) <= rank(s[j])
  }

  /** Inserts `x` after every element whose rank is not greater than its own. */
  function Insert<T>(x: T, s: seq<T>, rank: T -> real): (r: seq<T>)
    ensures multiset(r) == multiset(s) + multiset{x}
    decreases |s|
  {
    if s == [] then [x]
    else if rank(x) < rank(s[0]) then [x] + s
    else
      assert s == [s[0]] + s[1..];
      [s[0]] + Insert(x, s[1..], rank)
  }

  /** Inserting into a sorted sequence keeps it sorted. */
  lemma {:induction false} InsertSorted<T>(x: T, s: seq<T>, rank: T -> real)
    requires SortedBy(s, rank)
    ensures SortedBy(Insert(x, s, rank), rank)
    decreases |s|
  {
    if s != [] && rank(x) >= rank(s[0]) {
      var r' := Insert(x, s[1..], rank);
      InsertSorted(x, s[1..], rank);
      forall k | 0 <= k < |r'| ensures rank(s[0]) <= rank(r'[k]) {
        assert r'[k] in multiset(r');
        if r'[k] != x {
          assert r'[k] in multiset(s[1..]);
          var m :| 0 <= m < |s[1..]| && s[1..][m] == r'[k];
          assert s[m + 1] == r'[k];
        }
      }
      var r := [s[0]] + r';
      forall i, j | 0 <= i < j < |r| ensures rank(r[i]) <= rank(r[j]) {
        if i > 0 { assert r[i] == r'[i - 1]; }
        assert r[j] == r'[j - 1];
      }
    }
  }

  /** A stable sort, ascending by `rank`: the result is sorted and a permutation of the input. */
  function SortBy<T>(s: seq<T>, rank: T -> real): (r: seq<T>)
    ensures multiset(r) == multiset(s)
    ensures SortedBy(r, rank)
    decreases |s|
  {
    if s == [] then []
    else
      assert s == s[..|s| - 1] + [s[|s| - 1]];
      var r' := SortBy(s[..|s| - 1], rank);
      InsertSorted(s[|s| - 1], r', rank);
      Insert(s[|s| - 1], r', rank)
  }

  /** In a sequence without repetitions every element occurs at most once. */
  lemma {:induction false} DistinctCount<T>(s: seq<T>)
    requires Distinct(s)
    ensures forall x :: multiset(s)[x] <= 1
    decreases |s|
  {
    if s != [] {
      var s' := s[..|s| - 1];
      assert s == s' + [s[|s| - 1]];
      assert Distinct(s');
      DistinctCount(s');
      assert s[|s| - 1] !in s';
    }
  }

  /** A rearrangement of a sequence without repetitions has none either. */
  lemma DistinctPermutation<T>(s: seq<T>, t: seq<T>)
    requires Distinct(s) && multiset(s) == multiset(t)
    ensures Distinct(t)
  {
    DistinctCount(s);
    forall a, b | 0 <= a < b < |t| ensures t[a] != t[b] {
      assert t == t[..b] + t[b..];
      assert multiset(t) == multiset(t[..b]) + multiset(t[b..]);
      assert t[a] == t[..b][a];
      assert t[a] in multiset(t[..b]);
      assert t[b] == t[b..][0];
      assert t[b] in multiset(t[b..]);
      assert multiset(t)[t[b]] == multiset(s)[t[b]] <= 1;
      assert multiset(t)[t[b]] == multiset(t[..b])[t[b]] + multiset(t[b..])[t[b]];
      assert multiset(t[..b])[t[b]] == 0;
    }
  }

  /** The first `n` of a sorted list: `n` of them, or all when there are
      fewer; drawn from the list, still sorted, and the whole list when it
      has at most `n` elements. */
  lemma TakeSortedSpec<T>(s: seq<T>, rank: T -> real, n: nat)
    ensures |Take(SortBy(s, rank), n)| == if |s| < n then |s| else n
    ensures forall x :: x in Take(SortBy(s, rank), n) ==> x in s
    ensures SortedBy(Take(SortBy(s, rank), n), rank)
    ensures |s| <= n ==> multiset(Take(SortBy(s, rank), n)) == multiset(s)
  {
    var sorted := SortBy(s, rank);
    forall x | x in Take(sorted, n) ensures x in s {
      var i :| 0 <= i < |Take(sorted, n)| && Take(sorted, n)[i] == x;
      assert sorted[i] in multiset(sorted);
    }
    assert |multiset(s)| == |s|;
    assert |sorted| == |multiset(sorted)| == |multiset(s)| == |s|;
  }

  /** Of a sorted sequence, an element left out by `Take` ranks no lower
      than any element kept. */
  lemma TakeSortedTop<T>(s: seq<T>, rank: T -> real, n: nat, x: T)
    requires SortedBy(s, rank) && x in s && x !in Take(s, n)
    ensures forall i :: 0 <= i < |Take(s, n)| ==> rank(Take(s, n)[i]) <= rank(x)
  {
    var j :| 0 <= j < |s| && s[j] == x;
    forall k | 0 <= k < |Take(s, n)| ensures Take(s, n)[k] == s[k] && s[k] != x {
      assert Take(s, n)[k] in Take(s, n);
    }
    assert j >= |Take(s, n)|;
    forall i | 0 <= i < |Take(s, n)| ensures rank(Take(s, n)[i]) <= rank(x) {
      assert Take(s, n)[i] == s[i];
    }
  }

  /** `g` holds the keys of `s` in order of first appearance, and under
      each key the sum of `f` over the elements with that key. */
  ghost predicate GroupsOf<T, K(!new)>(g: Groups<K>, s: seq<T>, key: T -> K, f: T -> real) {
    && g.order == Keys(s, key)
    && (forall k :: k in g.totals <==> k in Keys(s, key))
    && (forall t :: 0 <= t < |g.order| ==> g.order[t] in g.totals)
    && (forall k :: k in g.totals ==> g.totals[k] == Total(s, key, k, f))
  }

  /** Adding one more element to the groups of `s` gives the groups of `s + [x]`. */
  lemma AddToGroups<T, K(!new)>(g: Groups<K>, s: seq<T>, x: T, key: T -> K, f: T -> real)
    requires GroupsOf(g, s, key, f)
    ensures GroupsOf(AddTo(g, key(x), f(x)), s + [x], key, f)
  {
    GroupSnoc(s, x, key, f);
    if key(x) !in Keys(s, key) {
      TotalAbsent(s, key, key(x), f);
    }
    var g' := AddTo(g, key(x), f(x));
    assert g'.order == Keys(s + [x], key);
    forall t | 0 <= t < |g'.order| ensures g'.order[t] in g'.totals {
      if t < |g.order| { assert g'.order[t] == g.order[t]; }
    }
    forall k | k in g'.totals ensures g'.totals[k] == Total(s + [x], key, k, f) {
      if k != key(x) {
        assert k in g.totals;
      }
    }
  }

  /** The map holds the keys in order of first appearance, and under each
      key the sum of `f` over the elements with that key. */
  lemma {:induction false} GroupSumSpec<T, K(!new)>(s: seq<T>, key: T -> K, f: T -> real)
    ensures GroupsOf(GroupSum(s, key, f), s, key, f)
    decreases |s|
  {
    if s != [] {
      var s' := s[..|s| - 1];
      assert s == s' + [s[|s| - 1]];
      GroupSumSpec(s', key, f);
      AddToGroups(GroupSum(s', key, f), s', s[|s| - 1], key, f);
    }
  }
}
