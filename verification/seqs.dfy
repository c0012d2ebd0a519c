/**
 * Sequence operations the aggregation pipelines are built from: selection,
 * sums, grouping keys, and a descending sort by an integer key ($sort with -1).
 */
module Seqs {

  /** The elements of `xs` that satisfy `p`, in order ($match). */
  function Select<T>(xs: seq<T>, p: T -> bool): (r: seq<T>)
    ensures |r| <= |xs|
    ensures forall i :: 0 <= i < |r| ==> r[i] in xs && p(r[i])
    ensures forall i :: 0 <= i < |xs| && p(xs[i]) ==> xs[i] in r
  {
    if xs == [] then []
    else if p(xs[0]) then [xs[0]] + Select(xs[1..], p)
    else Select(xs[1..], p)
  }

  /** Each element that satisfies `p` is selected as often as it occurs; any other never. */
  lemma {:induction false} SelectCount<T>(xs: seq<T>, p: T -> bool, x: T)
    ensures multiset(Select(xs, p))[x] == if p(x) then multiset(xs)[x] else 0
  {
    if xs != [] {
      SelectCount(xs[1..], p, x);
      assert xs == [xs[0]] + xs[1..];
    }
  }

  /** Selection keeps the order: selecting from two parts is selecting from each in turn. */
  lemma {:induction false} SelectAppend<T>(a: seq<T>, b: seq<T>, p: T -> bool)
    ensures Select(a + b, p) == Select(a, p) + Select(b, p)
  {
    if a == [] {
      assert a + b == b;
    } else {
      assert (a + b)[0] == a[0] && (a + b)[1..] == a[1..] + b;
      SelectAppend(a[1..], b, p);
    }
  }

  /** The sum of `f` over the elements of `xs`. */
  function SumOf<T>(xs: seq<T>, f: T -> int): int {
    if xs == [] then 0 else f(xs[0]) + SumOf(xs[1..], f)
  }

  /** `f` applied to every element, in order ($project, or the grouping key of each element). */
  function Map<T, U>(xs: seq<T>, f: T -> U): (r: seq<U>)
    ensures |r| == |xs|
    ensures forall i :: 0 <= i < |xs| ==> r[i] == f(xs[i])
  {
    if xs == [] then [] else [f(xs[0])] + Map(xs[1..], f)
  }

  ghost predicate NoDuplicates<K>(ks: seq<K>) {
    forall i, j :: 0 <= i < j < |ks| ==> ks[i] != ks[j]
  }

  /** The distinct elements of `xs`, each at the place it first occurs ($group keys). */
  function GroupKeys<K(==)>(xs: seq<K>): (r: seq<K>)
    ensures NoDuplicates(r)
    ensures forall i :: 0 <= i < |r| ==> r[i] in xs
    ensures forall i :: 0 <= i < |xs| ==> xs[i] in r
    ensures |r| <= |xs|
  {
    if xs == [] then []
    else
      var r := GroupKeys(xs[..|xs| - 1]);
      assert forall i :: 0 <= i < |xs| - 1 ==> xs[i] == xs[..|xs| - 1][i];
      if xs[|xs| - 1] in r then r else r + [xs[|xs| - 1]]
  }

  /** The sum of `w` over the elements of `xs` whose key is `k` ($sum within one group). */
  function KeyTotal<T, K(==)>(xs: seq<T>, key: T -> K, w: T -> int, k: K): int {
    if xs == [] then 0
    else (if key(xs[0]) == k then w(xs[0]) else 0) + KeyTotal(xs[1..], key, w, k)
  }

  /** The group totals of the keys `ks`, added up. */
  function SumOver<T, K(==)>(ks: seq<K>, xs: seq<T>, key: T -> K, w: T -> int): int {
    if ks == [] then 0 else KeyTotal(xs, key, w, ks[0]) + SumOver(ks[1..], xs, key, w)
  }

  /** Peeling the first element off `xs` takes its weight off the one group it belongs to. */
  lemma {:induction false} SumOverFirst<T, K>(ks: seq<K>, xs: seq<T>, key: T -> K, w: T -> int)
    requires NoDuplicates(ks)
    requires xs != []
    ensures SumOver(ks, xs, key, w)
         == SumOver(ks, xs[1..], key, w) + (if key(xs[0]) in ks then w(xs[0]) else 0)
  {
    if ks != [] {
      assert NoDuplicates(ks[1..]) by {
        forall i, j | 0 <= i < j < |ks[1..]| ensures ks[1..][i] != ks[1..][j] {
          assert ks[1..][i] == ks[i + 1] && ks[1..][j] == ks[j + 1];
        }
      }
      SumOverFirst(ks[1..], xs, key, w);
      assert key(xs[0]) == ks[0] ==> key(xs[0]) !in ks[1..];
      assert key(xs[0]) in ks <==> key(xs[0]) == ks[0] || key(xs[0]) in ks[1..] by {
        assert ks == [ks[0]] + ks[1..];
      }
    }
  }

  /**
   * Grouping conserves totals: when every element's key is among the distinct
   * keys `ks`, the group totals add up to the total over all elements.
   */
  lemma {:induction false} GroupingConserves<T, K>(ks: seq<K>, xs: seq<T>, key: T -> K, w: T -> int)
    requires NoDuplicates(ks)
    requires forall x :: x in xs ==> key(x) in ks
    ensures SumOver(ks, xs, key, w) == SumOf(xs, w)
  {
    if xs == [] {
      SumOverEmpty(ks, xs, key, w);
    } else {
      SumOverFirst(ks, xs, key, w);
      GroupingConserves(ks, xs[1..], key, w);
    }
  }

  lemma {:induction false} SumOverEmpty<T, K>(ks: seq<K>, xs: seq<T>, key: T -> K, w: T -> int)
    requires xs == []
    ensures SumOver(ks, xs, key, w) == 0
  {
    if ks != [] {
      SumOverEmpty(ks[1..], xs, key, w);
    }
  }

  /** The first `n` elements ($limit). */
  function Take<T>(xs: seq<T>, n: nat): (r: seq<T>)
    ensures |r| == if |xs| <= n then |xs| else n
    ensures r == xs[..|r|]
    ensures |xs| <= n ==> r == xs
  {
    if |xs| <= n then xs else xs[..n]
  }

  /** A prefix holds no element more often than the whole sequence. */
  lemma TakeSubMultiset<T>(xs: seq<T>, n: nat)
    ensures multiset(Take(xs, n)) <= multiset(xs)
  {
    var r := Take(xs, n);
    assert xs == r + xs[|r|..];
    assert multiset(xs) == multiset(r) + multiset(xs[|r|..]);
  }

  predicate NonIncreasing<T>(xs: seq<T>, key: T -> int) {
    forall i, j :: 0 <= i < j < |xs| ==> key(xs[i]) >= key(xs[j])
  }

  /** Places `x` in front of the first element with a smaller key. */
  function Insert<T>(x: T, xs: seq<T>, key: T -> int): seq<T> {
    if xs == [] then [x]
    else if key(x) >= key(xs[0]) then [x] + xs
    else [xs[0]] + Insert(x, xs[1..], key)
  }

  /** Sorts by `key`, largest first; the order among equal keys is not specified. */
  function SortDesc<T>(xs: seq<T>, key: T -> int): seq<T> {
    if xs == [] then [] else Insert(xs[0], SortDesc(xs[1..], key), key)
  }

  lemma {:induction false} InsertPermutes<T>(x: T, xs: seq<T>, key: T -> int)
    ensures multiset(Insert(x, xs, key)) == multiset(xs) + multiset{x}
  {
    if xs != [] && key(x) < key(xs[0]) {
      InsertPermutes(x, xs[1..], key);
      assert xs == [xs[0]] + xs[1..];
    }
  }

  lemma {:induction false} InsertSums<T>(x: T, xs: seq<T>, key: T -> int, f: T -> int)
    ensures SumOf(Insert(x, xs, key), f) == f(x) + SumOf(xs, f)
  {
    if xs == [] {
      assert SumOf([x], f) == f(x) + SumOf([x][1..], f);
    } else if key(x) >= key(xs[0]) {
      assert ([x] + xs)[1..] == xs;
    } else {
      InsertSums(x, xs[1..], key, f);
      var ins := Insert(x, xs[1..], key);
      assert ([xs[0]] + ins)[1..] == ins;
    }
  }

  /** No key in `ys` exceeds `b`. */
  predicate Bounded<T>(b: int, ys: seq<T>, key: T -> int) {
    forall j :: 0 <= j < |ys| ==> key(ys[j]) <= b
  }

  lemma NonIncreasingHead<T>(xs: seq<T>, key: T -> int)
    requires NonIncreasing(xs, key) && xs != []
    ensures NonIncreasing(xs[1..], key)
    ensures Bounded(key(xs[0]), xs, key)
  {
    var tail := xs[1..];
    forall i, j | 0 <= i < j < |tail| ensures key(tail[i]) >= key(tail[j]) {
      assert tail[i] == xs[i + 1] && tail[j] == xs[j + 1];
    }
  }

  lemma NonIncreasingCons<T>(y: T, ys: seq<T>, key: T -> int)
    requires NonIncreasing(ys, key) && Bounded(key(y), ys, key)
    ensures NonIncreasing([y] + ys, key)
  {
    var r := [y] + ys;
    forall i, j | 0 <= i < j < |r| ensures key(r[i]) >= key(r[j]) {
      assert r[j] == ys[j - 1];
      if i > 0 {
        assert r[i] == ys[i - 1];
      }
    }
  }

  lemma {:induction false} InsertBounded<T>(b: int, x: T, xs: seq<T>, key: T -> int)
    requires key(x) <= b && Bounded(b, xs, key)
    ensures Bounded(b, Insert(x, xs, key), key)
  {
    if xs != [] && key(x) < key(xs[0]) {
      var tail := xs[1..];
      assert Bounded(b, tail, key) by {
        forall j | 0 <= j < |tail| ensures key(tail[j]) <= b {
          assert tail[j] == xs[j + 1];
        }
      }
      InsertBounded(b, x, tail, key);
      var r := [xs[0]] + Insert(x, tail, key);
      forall j | 1 <= j < |r| ensures key(r[j]) <= b {
        assert r[j] == Insert(x, tail, key)[j - 1];
      }
    } else {
      var r := [x] + xs;
      forall j | 1 <= j < |r| ensures key(r[j]) <= b {
        assert r[j] == xs[j - 1];
      }
    }
  }

  lemma {:induction false} InsertSorted<T>(x: T, xs: seq<T>, key: T -> int)
    requires NonIncreasing(xs, key)
    ensures NonIncreasing(Insert(x, xs, key), key)
  {
    if xs == [] {
    } else if key(x) < key(xs[0]) {
      NonIncreasingHead(xs, key);
      var tail := xs[1..];
      assert Bounded(key(xs[0]), tail, key) by {
        forall j | 0 <= j < |tail| ensures key(tail[j]) <= key(xs[0]) {
          assert tail[j] == xs[j + 1];
        }
      }
      InsertSorted(x, tail, key);
      InsertBounded(key(xs[0]), x, tail, key);
      NonIncreasingCons(xs[0], Insert(x, tail, key), key);
    } else {
      NonIncreasingHead(xs, key);
      NonIncreasingCons(x, xs, key);
    }
  }

  lemma {:induction false} SortDescSorted<T>(xs: seq<T>, key: T -> int)
    ensures NonIncreasing(SortDesc(xs, key), key)
  {
    if xs != [] {
      SortDescSorted(xs[1..], key);
      InsertSorted(xs[0], SortDesc(xs[1..], key), key);
    }
  }

  lemma {:induction false} SortDescPermutes<T>(xs: seq<T>, key: T -> int)
    ensures multiset(SortDesc(xs, key)) == multiset(xs)
  {
    if xs != [] {
      SortDescPermutes(xs[1..], key);
      InsertPermutes(xs[0], SortDesc(xs[1..], key), key);
      assert xs == [xs[0]] + xs[1..];
      assert multiset(xs) == multiset{xs[0]} + multiset(xs[1..]);
    }
  }

  lemma {:induction false} SortDescSums<T>(xs: seq<T>, key: T -> int, f: T -> int)
    ensures SumOf(SortDesc(xs, key), f) == SumOf(xs, f)
  {
    if xs != [] {
      SortDescSums(xs[1..], key, f);
      InsertSums(xs[0], SortDesc(xs[1..], key), key, f);
    }
  }

  /** The sorted sequence is non-increasing, a permutation of the input, and has the same sums. */
  lemma SortDescCorrect<T>(xs: seq<T>, key: T -> int, f: T -> int)
    ensures NonIncreasing(SortDesc(xs, key), key)
    ensures multiset(SortDesc(xs, key)) == multiset(xs)
    ensures |SortDesc(xs, key)| == |xs|
    ensures SumOf(SortDesc(xs, key), f) == SumOf(xs, f)
  {
    SortDescSorted(xs, key);
    SortDescPermutes(xs, key);
    SortDescSums(xs, key, f);
    assert |SortDesc(xs, key)| == |multiset(SortDesc(xs, key))|;
  }

  /** A group total is the sum over the elements `p` selects, when `p` tests for the key `k`. */
  lemma {:induction false} KeyTotalSelects<T, K>(xs: seq<T>, key: T -> K, w: T -> int, k: K, p: T -> bool)
    requires forall x :: p(x) <==> key(x) == k
    ensures KeyTotal(xs, key, w, k) == SumOf(Select(xs, p), w)
  {
    if xs != [] {
      KeyTotalSelects(xs[1..], key, w, k, p);
    }
  }

  /** With a weight of one per element, a sum is a count. */
  lemma {:induction false} SumOfOnes<T>(xs: seq<T>, w: T -> int)
    requires forall x :: w(x) == 1
    ensures SumOf(xs, w) == |xs|
  {
    if xs != [] {
      SumOfOnes(xs[1..], w);
    }
  }

  /**
   * Adding up one figure per group, when each figure is the total of the
   * group in the same place, adds up the group totals.
   */
  lemma {:induction false} SumOfGroups<T, K, G>(gs: seq<G>, figure: G -> int, ks: seq<K>, xs: seq<T>, key: T -> K, w: T -> int)
    requires |gs| == |ks|
    requires forall i :: 0 <= i < |ks| ==> figure(gs[i]) == KeyTotal(xs, key, w, ks[i])
    ensures SumOf(gs, figure) == SumOver(ks, xs, key, w)
  {
    if ks != [] {
      SumOfGroups(gs[1..], figure, ks[1..], xs, key, w);
    }
  }

  /** The largest element. */
  function MaxOf(ks: seq<int>): (m: int)
    requires ks != []
    ensures m in ks
    ensures forall i :: 0 <= i < |ks| ==> ks[i] <= m
  {
    if |ks| == 1 then ks[0]
    else
      var m := MaxOf(ks[1..]);
      assert forall i :: 1 <= i < |ks| ==> ks[i] == ks[1..][i - 1];
      if ks[0] >= m then ks[0] else m
  }

  /** `ks` without any occurrence of `m`. */
  function Remove(ks: seq<int>, m: int): (r: seq<int>)
    ensures forall x :: x in r <==> x in ks && x != m
    ensures m in ks ==> |r| < |ks|
    ensures |r| <= |ks|
  {
    if ks == [] then []
    else if ks[0] == m then Remove(ks[1..], m)
    else [ks[0]] + Remove(ks[1..], m)
  }

  predicate Decreasing(ks: seq<int>) {
    forall i, j :: 0 <= i < j < |ks| ==> ks[i] > ks[j]
  }

  /** The distinct elements of `ks`, largest first ($group on a key, then $sort on it with -1). */
  function Ranked(ks: seq<int>): (r: seq<int>)
    ensures Decreasing(r)
    ensures forall x :: x in r <==> x in ks
    decreases |ks|
  {
    if ks == [] then []
    else
      var m := MaxOf(ks);
      var rest := Remove(ks, m);
      var tail := Ranked(rest);
      DecreasingCons(m, tail);
      [m] + tail
  }

  lemma DecreasingCons(m: int, ks: seq<int>)
    requires Decreasing(ks)
    requires forall x :: x in ks ==> x < m
    ensures Decreasing([m] + ks)
  {
    var r := [m] + ks;
    forall i, j | 0 <= i < j < |r| ensures r[i] > r[j] {
      assert r[j] == ks[j - 1] && ks[j - 1] in ks;
      if i > 0 {
        assert r[i] == ks[i - 1];
      }
    }
  }

  /**
   * In a strictly decreasing sequence, an element is among the first `n`, or
   * there are at least `n` and it is below the `n`th.
   */
  lemma TakeDecreasing(ks: seq<int>, k: int, n: nat)
    requires Decreasing(ks) && k in ks && n > 0
    ensures k in Take(ks, n) || (|Take(ks, n)| == n && k < Take(ks, n)[n - 1])
  {
    var i :| 0 <= i < |ks| && ks[i] == k;
    if i < n {
      assert Take(ks, n)[i] == k;
    } else {
      assert Take(ks, n)[n - 1] == ks[n - 1];
    }
  }
}
