/**
 * Stable sorting by an integer key, as the services use it for rows read
 * back `order_by(timestamp)` or `order_by(desc(timestamp))`, and as Python's
 * `list.sort(key=..., reverse=True)` keeps equal elements in their order.
 */
module Ordering {
  predicate NonIncreasing<T>(xs: seq<T>, key: T -> int) {
    forall i, j :: 0 <= i < j < |xs| ==> key(xs[i]) >= key(xs[j])
  }

  predicate NonDecreasing<T>(xs: seq<T>, key: T -> int) {
    forall i, j :: 0 <= i < j < |xs| ==> key(xs[i]) <= key(xs[j])
  }

  /** Insert before the first element whose key does not exceed `x`'s. */
  function InsertDesc<T>(x: T, xs: seq<T>, key: T -> int): (r: seq<T>)
    ensures multiset(r) == multiset(xs) + multiset{x}
    ensures |r| == |xs| + 1
  {
    if xs == [] || key(x) >= key(xs[0]) then [x] + xs
    else
      assert xs == [xs[0]] + xs[1..];
      [xs[0]] + InsertDesc(x, xs[1..], key)
  }

  lemma {:induction false} InsertDescSorted<T>(x: T, xs: seq<T>, key: T -> int)
    requires NonIncreasing(xs, key)
    ensures NonIncreasing(InsertDesc(x, xs, key), key)
    decreases |xs|
  {
    if !(xs == [] || key(x) >= key(xs[0])) {
      var rest := InsertDesc(x, xs[1..], key);
      InsertDescSorted(x, xs[1..], key);
      forall k | 0 <= k < |rest| ensures key(xs[0]) >= key(rest[k]) {
        assert rest[k] in multiset(xs[1..]) + multiset{x};
        if rest[k] != x {
          assert rest[k] in xs[1..];
        }
      }
    }
  }

  /** Newest (largest key) first; equal keys keep their order. */
  function SortDesc<T>(xs: seq<T>, key: T -> int): (r: seq<T>)
    ensures multiset(r) == multiset(xs)
    ensures |r| == |xs|
  {
    if xs == [] then []
    else
      assert xs == [xs[0]] + xs[1..];
      InsertDesc(xs[0], SortDesc(xs[1..], key), key)
  }

  lemma {:induction false} SortDescSorted<T>(xs: seq<T>, key: T -> int)
    ensures NonIncreasing(SortDesc(xs, key), key)
    decreases |xs|
  {
    if xs != [] {
      SortDescSorted(xs[1..], key);
      InsertDescSorted(xs[0], SortDesc(xs[1..], key), key);
    }
  }

  /** Insert before the first element whose key is not below `x`'s. */
  function InsertAsc<T>(x: T, xs: seq<T>, key: T -> int): (r: seq<T>)
    ensures multiset(r) == multiset(xs) + multiset{x}
    ensures |r| == |xs| + 1
  {
    if xs == [] || key(x) <= key(xs[0]) then [x] + xs
    else
      assert xs == [xs[0]] + xs[1..];
      [xs[0]] + InsertAsc(x, xs[1..], key)
  }

  lemma {:induction false} InsertAscSorted<T>(x: T, xs: seq<T>, key: T -> int)
    requires NonDecreasing(xs, key)
    ensures NonDecreasing(InsertAsc(x, xs, key), key)
    decreases |xs|
  {
    if !(xs == [] || key(x) <= key(xs[0])) {
      var rest := InsertAsc(x, xs[1..], key);
      InsertAscSorted(x, xs[1..], key);
      forall k | 0 <= k < |rest| ensures key(xs[0]) <= key(rest[k]) {
        assert rest[k] in multiset(xs[1..]) + multiset{x};
        if rest[k] != x {
          assert rest[k] in xs[1..];
        }
      }
    }
  }

  /** Oldest (smallest key) first; equal keys keep their order. */
  function SortAsc<T>(xs: seq<T>, key: T -> int): (r: seq<T>)
    ensures multiset(r) == multiset(xs)
    ensures |r| == |xs|
  {
    if xs == [] then []
    else
      assert xs == [xs[0]] + xs[1..];
      InsertAsc(xs[0], SortAsc(xs[1..], key), key)
  }

  lemma {:induction false} SortAscSorted<T>(xs: seq<T>, key: T -> int)
    ensures NonDecreasing(SortAsc(xs, key), key)
    decreases |xs|
  {
    if xs != [] {
      SortAscSorted(xs[1..], key);
      InsertAscSorted(xs[0], SortAsc(xs[1..], key), key);
    }
  }

  /** `list(reversed(xs))` */
  function Reverse<T>(xs: seq<T>): (r: seq<T>)
    ensures |r| == |xs|
    ensures forall i :: 0 <= i < |xs| ==> r[i] == xs[|xs| - 1 - i]
  {
    if xs == [] then [] else Reverse(xs[1..]) + [xs[0]]
  }

  lemma ReverseFlipsOrder<T>(xs: seq<T>, key: T -> int)
    requires NonIncreasing(xs, key)
    ensures NonDecreasing(Reverse(xs), key)
  {
    var r := Reverse(xs);
    forall i, j | 0 <= i < j < |r| ensures key(r[i]) <= key(r[j]) {
      assert r[i] == xs[|xs| - 1 - i] && r[j] == xs[|xs| - 1 - j];
    }
  }

  lemma ReverseMembers<T>(xs: seq<T>)
    ensures forall x :: x in Reverse(xs) <==> x in xs
  {
    var r := Reverse(xs);
    forall x | x in xs ensures x in r {
      var i :| 0 <= i < |xs| && xs[i] == x;
      assert r[|xs| - 1 - i] == x;
    }
  }

  /** The first `n` of a list sorted newest first come from it and are at least as large as everything left out. */
  lemma {:induction false} TopOfSorted<T>(xs: seq<T>, key: T -> int, n: nat)
    ensures var w := Prefix(SortDesc(xs, key), n);
      && (forall x :: x in w ==> x in xs)
      && (forall m, x :: m in xs && m !in w && x in w ==> key(m) <= key(x))
  {
    var sorted := SortDesc(xs, key);
    SortDescSorted(xs, key);
    var w := Prefix(sorted, n);
    forall x | x in w ensures x in xs {
      assert x in multiset(sorted);
    }
    forall m, x | m in xs && m !in w && x in w ensures key(m) <= key(x) {
      assert m in multiset(sorted);
      var a :| 0 <= a < |sorted| && sorted[a] == m;
      var b :| 0 <= b < |w| && w[b] == x;
      assert a >= |w|;
      assert sorted[b] == x;
    }
  }

  /** `xs[:n]` for a non-negative `n`. */
  function Prefix<T>(xs: seq<T>, n: nat): (r: seq<T>)
    ensures |r| == if |xs| < n then |xs| else n
    ensures r == xs[..|r|]
  {
    if |xs| <= n then xs else xs[..n]
  }

  /** The filter `[x for x in xs if keep(x)]`. */
  function Filter<T>(xs: seq<T>, keep: T -> bool): (r: seq<T>)
    ensures |r| <= |xs|
    ensures forall x :: x in r ==> x in xs && keep(x)
    ensures forall x {:trigger x in r} :: x in xs && keep(x) ==> x in r
  {
    if xs == [] then []
    else (if keep(xs[0]) then [xs[0]] else []) + Filter(xs[1..], keep)
  }

  /** Filtering distributes over concatenation. */
  lemma {:induction false} FilterAppend<T>(a: seq<T>, b: seq<T>, keep: T -> bool)
    ensures Filter(a + b, keep) == Filter(a, keep) + Filter(b, keep)
    decreases |a|
  {
    if a == [] {
      assert a + b == b;
    } else {
      assert (a + b)[1..] == a[1..] + b;
      FilterAppend(a[1..], b, keep);
    }
  }

  /** A filter every element passes keeps the sequence as it is. */
  lemma {:induction false} FilterAll<T>(xs: seq<T>, keep: T -> bool)
    requires forall i :: 0 <= i < |xs| ==> keep(xs[i])
    ensures Filter(xs, keep) == xs
    decreases |xs|
  {
    if xs != [] {
      FilterAll(xs[1..], keep);
      assert xs == [xs[0]] + xs[1..];
    }
  }

  /** A filter that rejects exactly the element at `k` removes that one element. */
  lemma {:induction false} FilterDropsOne<T>(xs: seq<T>, k: nat, keep: T -> bool)
    requires k < |xs| && !keep(xs[k])
    requires forall j :: 0 <= j < |xs| && j != k ==> keep(xs[j])
    ensures Filter(xs, keep) == xs[..k] + xs[k + 1..]
    decreases k
  {
    var t := xs[1..];
    FilterCons(xs[0], t, keep);
    assert xs == [xs[0]] + t;
    if k == 0 {
      FilterAll(t, keep);
    } else {
      FilterDropsOne(t, k - 1, keep);
      SplitTail(xs, k);
    }
  }

  /** The filter of `[x] + t`: `x` when it passes, then the filter of `t`. */
  lemma FilterCons<T>(x: T, t: seq<T>, keep: T -> bool)
    ensures Filter([x] + t, keep) == (if keep(x) then [x] else []) + Filter(t, keep)
  {
    assert ([x] + t)[1..] == t;
  }

  lemma SplitTail<T>(xs: seq<T>, k: nat)
    requires 0 < k < |xs|
    ensures [xs[0]] + (xs[1..][..k - 1] + xs[1..][k..]) == xs[..k] + xs[k + 1..]
  {
    assert xs[1..][..k - 1] == xs[1..k];
    assert xs[1..][k..] == xs[k + 1..];
    assert [xs[0]] + xs[1..k] == xs[..k];
  }

  /** How many elements pass the filter, as `sum(1 for x in xs if keep(x))`. */
  function Count<T>(xs: seq<T>, keep: T -> bool): (n: nat)
    ensures n <= |xs|
  {
    |Filter(xs, keep)|
  }

  /** Replacing one element changes the count by what the old and new elements contribute. */
  lemma {:induction false} CountUpdate<T>(xs: seq<T>, k: nat, y: T, keep: T -> bool)
    requires k < |xs|
    ensures Count(xs[k := y], keep) + (if keep(xs[k]) then 1 else 0) == Count(xs, keep) + (if keep(y) then 1 else 0)
    decreases k
  {
    if k > 0 {
      CountUpdate(xs[1..], k - 1, y, keep);
      assert xs[k := y][1..] == xs[1..][k - 1 := y];
    } else {
      assert xs[k := y][1..] == xs[1..];
    }
  }

  /** Two disjoint filters select no more than the whole. */
  lemma {:induction false} DisjointCounts<T>(xs: seq<T>, a: T -> bool, b: T -> bool)
    requires forall x :: x in xs ==> !(a(x) && b(x))
    ensures Count(xs, a) + Count(xs, b) <= |xs|
    decreases |xs|
  {
    if xs != [] {
      DisjointCounts(xs[1..], a, b);
    }
  }
}
