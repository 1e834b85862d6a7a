/**
 * Sequence operations the reports lean on: list comprehensions with a
 * condition, `sum`, `max`, slicing `[:k]`, and Python's `sorted`, which is a
 * stable sort (`reverse=True` keeps equal elements in their original order,
 * so a descending sort is a stable sort on "at least" as the ordering).
 */
module Seqs {

  datatype Option<T> = None | Some(value: T)

  /** `[x for x in s if keep(x)]` */
  function Filter<T>(s: seq<T>, keep: T -> bool): (r: seq<T>)
    ensures |r| <= |s|
    ensures forall x :: x in r ==> x in s && keep(x)
  {
    if s == [] then []
    else if keep(s[0]) then [s[0]] + Filter(s[1..], keep)
    else Filter(s[1..], keep)
  }

  /** A comprehension keeps exactly the elements that pass, each as often as it occurs. */
  lemma {:induction false} FilterCounts<T>(s: seq<T>, keep: T -> bool)
    ensures forall x :: multiset(Filter(s, keep))[x] == if keep(x) then multiset(s)[x] else 0
  {
    if s != [] {
      FilterCounts(s[1..], keep);
      assert s == [s[0]] + s[1..];
    }
  }

  lemma {:induction false} FilterAppend<T>(a: seq<T>, b: seq<T>, keep: T -> bool)
    ensures Filter(a + b, keep) == Filter(a, keep) + Filter(b, keep)
  {
    if a == [] {
      assert a + b == b;
    } else {
      assert (a + b)[1..] == a[1..] + b;
      FilterAppend(a[1..], b, keep);
    }
  }

  /** An element that passes is kept. */
  lemma FilterKeeps<T>(s: seq<T>, keep: T -> bool, x: T)
    requires x in s && keep(x)
    ensures x in Filter(s, keep)
  {
    FilterCounts(s, keep);
    assert x in multiset(s);
    assert x in multiset(Filter(s, keep));
  }

  /** A comprehension over a list none of whose elements pass is empty. */
  lemma {:induction false} FilterNone<T>(s: seq<T>, keep: T -> bool)
    requires forall i :: 0 <= i < |s| ==> !keep(s[i])
    ensures Filter(s, keep) == []
  {
    if s != [] {
      FilterNone(s[1..], keep);
    }
  }

  /** A comprehension over a list all of whose elements pass keeps the list. */
  lemma {:induction false} FilterAll<T>(s: seq<T>, keep: T -> bool)
    requires forall i :: 0 <= i < |s| ==> keep(s[i])
    ensures Filter(s, keep) == s
  {
    if s != [] {
      FilterAll(s[1..], keep);
      assert s == [s[0]] + s[1..];
    }
  }

  /** Multisets are equal when every element occurs as often in both. */
  lemma SameCounts<T>(m: multiset<T>, n: multiset<T>)
    requires forall x :: m[x] == n[x]
    ensures m == n
  {
  }

  /** Reordering a list does not change how many of its elements pass. */
  lemma CountPermutation<T>(a: seq<T>, b: seq<T>, cond: T -> bool)
    requires multiset(a) == multiset(b)
    ensures Count(a, cond) == Count(b, cond)
  {
    FilterCounts(a, cond);
    FilterCounts(b, cond);
    var fa, fb := multiset(Filter(a, cond)), multiset(Filter(b, cond));
    assert forall x :: fa[x] == fb[x];
    assert fa == fb by { SameCounts(fa, fb); }
    assert |multiset(Filter(a, cond))| == |Filter(a, cond)|;
    assert |multiset(Filter(b, cond))| == |Filter(b, cond)|;
  }

  /** `len([x for x in s if cond(x)])`, i.e. `sum(1 for x in s if cond(x))` */
  function Count<T>(s: seq<T>, cond: T -> bool): nat
  {
    |Filter(s, cond)|
  }

  /** A condition that holds wherever a narrower one does never counts fewer. */
  lemma {:induction false} CountMonotone<T>(s: seq<T>, narrow: T -> bool, wide: T -> bool)
    requires forall x :: narrow(x) ==> wide(x)
    ensures Count(s, narrow) <= Count(s, wide)
  {
    if s != [] {
      CountMonotone(s[1..], narrow, wide);
    }
  }

  /** Appending one element adds one to the count exactly when it passes. */
  lemma CountSnoc<T>(s: seq<T>, x: T, cond: T -> bool)
    ensures Count(s + [x], cond) == Count(s, cond) + (if cond(x) then 1 else 0)
  {
    FilterAppend(s, [x], cond);
    assert Filter([x], cond) == if cond(x) then [x] else [];
  }

  /** `sum(s)` over reals; the sum of nothing is 0. */
  function Sum(s: seq<real>): real
  {
    if s == [] then 0.0 else Sum(s[..|s| - 1]) + s[|s| - 1]
  }

  /** One more element of a prefix adds that element to its sum. */
  lemma SumPrefix(s: seq<real>, i: nat)
    requires i < |s|
    ensures Sum(s[..i + 1]) == Sum(s[..i]) + s[i]
  {
    assert s[..i + 1][..i] == s[..i];
  }

  /** A list whose every element is `c` sums to its length times `c`. */
  lemma {:induction false} SumConstant(s: seq<real>, c: real)
    requires forall i :: 0 <= i < |s| ==> s[i] == c
    ensures Sum(s) == |s| as real * c
  {
    if s != [] {
      SumConstant(s[..|s| - 1], c);
      assert (|s| - 1) as real * c + c == |s| as real * c;
    }
  }

  lemma {:induction false} SumAppend(a: seq<real>, b: seq<real>)
    ensures Sum(a + b) == Sum(a) + Sum(b)
    decreases |b|
  {
    if b == [] {
      assert a + b == a;
    } else {
      assert (a + b)[..|a + b| - 1] == a + b[..|b| - 1];
      SumAppend(a, b[..|b| - 1]);
    }
  }

  lemma {:induction false} SumNonNegative(s: seq<real>)
    requires forall i :: 0 <= i < |s| ==> s[i] >= 0.0
    ensures Sum(s) >= 0.0
  {
    if s != [] {
      SumNonNegative(s[..|s| - 1]);
    }
  }

  /** `sum(s)` over natural numbers. */
  function SumNat(s: seq<nat>): nat
  {
    if s == [] then 0 else SumNat(s[..|s| - 1]) + s[|s| - 1]
  }

  lemma SumNatPrefix(s: seq<nat>, i: nat)
    requires i < |s|
    ensures SumNat(s[..i + 1]) == SumNat(s[..i]) + s[i]
  {
    assert s[..i + 1][..i] == s[..i];
  }

  lemma {:induction false} SumNatAppend(a: seq<nat>, b: seq<nat>)
    ensures SumNat(a + b) == SumNat(a) + SumNat(b)
    decreases |b|
  {
    if b == [] {
      assert a + b == a;
    } else {
      assert (a + b)[..|a + b| - 1] == a + b[..|b| - 1];
      SumNatAppend(a, b[..|b| - 1]);
    }
  }

  /** `[f(x) for x in s]` */
  function Map<T, U>(s: seq<T>, f: T -> U): (r: seq<U>)
    ensures |r| == |s|
    ensures forall i :: 0 <= i < |s| ==> r[i] == f(s[i])
  {
    if s == [] then [] else [f(s[0])] + Map(s[1..], f)
  }

  /** Every element of a mapped list is the image of an element of the list. */
  lemma InMap<T, U>(y: U, s: seq<T>, f: T -> U)
    requires y in Map(s, f)
    ensures exists i :: 0 <= i < |s| && y == f(s[i])
  {
    var i :| 0 <= i < |Map(s, f)| && Map(s, f)[i] == y;
  }

  /** `max(s)`, defined only on a non-empty list as in Python. */
  function Max(s: seq<real>): (m: real)
    requires |s| > 0
    ensures m in s
    ensures forall i :: 0 <= i < |s| ==> s[i] <= m
  {
    if |s| == 1 then s[0]
    else
      var rest := Max(s[1..]);
      assert forall i :: 1 <= i < |s| ==> s[i] == s[1..][i - 1];
      if s[0] >= rest then s[0] else rest
  }

  /** `s[:k]` */
  function Take<T>(s: seq<T>, k: nat): (r: seq<T>)
    ensures |r| == if k < |s| then k else |s|
    ensures r == s[..|r|]
  {
    if k < |s| then s[..k] else s
  }

  // ---------------------------------------------------------------- sorting

  ghost predicate TotalPreorder<T(!new)>(le: (T, T) -> bool) {
    (forall a, b :: le(a, b) || le(b, a)) &&
    (forall a, b, c :: le(a, b) && le(b, c) ==> le(a, c))
  }

  ghost predicate SortedBy<T>(s: seq<T>, le: (T, T) -> bool) {
    forall i, j :: 0 <= i < j < |s| ==> le(s[i], s[j])
  }

  /** Put x in front of the first element it may precede; equal elements keep x first. */
  function Insert<T>(x: T, s: seq<T>, le: (T, T) -> bool): (r: seq<T>)
    ensures multiset(r) == multiset(s) + multiset{x}
    ensures |r| == |s| + 1
  {
    if s == [] then [x]
    else if le(x, s[0]) then [x] + s
    else
      assert s == [s[0]] + s[1..];
      [s[0]] + Insert(x, s[1..], le)
  }

  ghost predicate NoDuplicates<T>(s: seq<T>) {
    forall i, j :: 0 <= i < j < |s| ==> s[i] != s[j]
  }

  /** A list has no duplicates exactly when no element occurs twice in its multiset. */
  lemma {:induction false} NoDuplicatesCounts<T>(s: seq<T>)
    ensures NoDuplicates(s) <==> forall x :: multiset(s)[x] <= 1
  {
    if NoDuplicates(s) {
      if s != [] {
        assert NoDuplicates(s[1..]);
        NoDuplicatesCounts(s[1..]);
        assert s == [s[0]] + s[1..];
        assert s[0] !in s[1..];
      }
    } else {
      var i, j :| 0 <= i < j < |s| && s[i] == s[j];
      assert s == s[..i] + [s[i]] + s[i + 1..j] + [s[j]] + s[j + 1..];
      assert multiset(s)[s[i]] >= 2;
    }
  }

  /** Sorting a list without duplicates gives a list without duplicates. */
  lemma SortByNoDuplicates<T>(s: seq<T>, le: (T, T) -> bool)
    requires NoDuplicates(s)
    ensures NoDuplicates(SortBy(s, le))
  {
    NoDuplicatesCounts(s);
    NoDuplicatesCounts(SortBy(s, le));
  }

  /** Stable insertion sort: `sorted(s)` with the order `le`. */
  function SortBy<T>(s: seq<T>, le: (T, T) -> bool): (r: seq<T>)
    ensures multiset(r) == multiset(s)
    ensures |r| == |s|
  {
    if s == [] then []
    else
      assert s == [s[0]] + s[1..];
      Insert(s[0], SortBy(s[1..], le), le)
  }

  /** Sorting neither adds nor drops elements. */
  lemma InSorted<T>(x: T, s: seq<T>, le: (T, T) -> bool)
    ensures x in SortBy(s, le) <==> x in s
  {
    assert x in SortBy(s, le) <==> x in multiset(SortBy(s, le));
  }

  lemma {:induction false} InsertSorted<T(!new)>(x: T, s: seq<T>, le: (T, T) -> bool)
    requires TotalPreorder(le) && SortedBy(s, le)
    ensures SortedBy(Insert(x, s, le), le)
  {
    if s != [] && !le(x, s[0]) {
      assert SortedBy(s[1..], le);
      InsertSorted(x, s[1..], le);
      var tail := Insert(x, s[1..], le);
      assert le(s[0], x);
      forall k | 0 <= k < |tail| ensures le(s[0], tail[k]) {
        assert tail[k] in multiset(tail);
        assert tail[k] in multiset(s[1..]) + multiset{x};
        if tail[k] in multiset(s[1..]) {
          var j :| 0 <= j < |s[1..]| && s[1..][j] == tail[k];
          assert s[1..][j] == s[j + 1];
        }
      }
    }
  }

  /** `sorted` returns a sorted permutation of its input. */
  lemma {:induction false} SortBySorted<T(!new)>(s: seq<T>, le: (T, T) -> bool)
    requires TotalPreorder(le)
    ensures SortedBy(SortBy(s, le), le)
  {
    if s != [] {
      SortBySorted(s[1..], le);
      InsertSorted(s[0], SortBy(s[1..], le), le);
    }
  }

  /** A list that is already in order comes back unchanged. */
  lemma {:induction false} SortByIdentity<T>(s: seq<T>, le: (T, T) -> bool)
    requires SortedBy(s, le)
    ensures SortBy(s, le) == s
  {
    if s != [] {
      assert SortedBy(s[1..], le);
      SortByIdentity(s[1..], le);
      if |s| > 1 {
        assert le(s[0], s[1..][0]);
      }
      assert s == [s[0]] + s[1..];
    }
  }

  /**
   * The first k of a sorted permutation are the top k: every element left out
   * comes after each kept one in the order.
   */
  lemma TakeIsTop<T>(s: seq<T>, k: nat, le: (T, T) -> bool)
    requires SortedBy(s, le)
    ensures forall x, j :: x in multiset(s) - multiset(Take(s, k)) && 0 <= j < |Take(s, k)| ==>
      le(Take(s, k)[j], x)
  {
    var t := Take(s, k);
    assert s == t + s[|t|..];
    assert multiset(s) == multiset(t) + multiset(s[|t|..]);
    forall x, j | x in multiset(s) - multiset(t) && 0 <= j < |t| ensures le(t[j], x) {
      assert x in multiset(s[|t|..]);
      var i :| 0 <= i < |s[|t|..]| && s[|t|..][i] == x;
      assert s[|t| + i] == x;
    }
  }

  /** `sorted(s, key=...)[:k]`: the first k elements in the order `le`. */
  function Top<T>(s: seq<T>, k: nat, le: (T, T) -> bool): (r: seq<T>)
    ensures |r| == if k < |s| then k else |s|
  {
    Take(SortBy(s, le), k)
  }

  /**
   * The top k are in order, are drawn from s, and every element left out
   * comes after each of them.
   */
  lemma TopSpec<T(!new)>(s: seq<T>, k: nat, le: (T, T) -> bool)
    requires TotalPreorder(le)
    ensures SortedBy(Top(s, k, le), le)
    ensures multiset(Top(s, k, le)) <= multiset(s)
    ensures forall x :: x in Top(s, k, le) ==> x in s
    ensures forall x, j :: x in multiset(s) - multiset(Top(s, k, le)) && 0 <= j < |Top(s, k, le)| ==>
      le(Top(s, k, le)[j], x)
  {
    var sorted := SortBy(s, le);
    var t := Top(s, k, le);
    SortBySorted(s, le);
    TakeIsTop(sorted, k, le);
    assert sorted == t + sorted[|t|..];
    assert multiset(sorted) == multiset(t) + multiset(sorted[|t|..]);
    forall x | x in t ensures x in s {
      assert x in multiset(t);
      assert x in multiset(s);
    }
  }
}
