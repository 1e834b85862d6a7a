/**
 * `values(key).annotate(n=Count(...))`: grouping a list of rows by a key and
 * counting the rows in each group.  Groups are kept in order of first
 * appearance, as a Python dict filled row by row would keep them.
 */
module Groups {
  import opened Seqs

  datatype Group<K> = Group(key: K, count: nat)

  /** Add one row with key k: bump its group, or open a new group at the end. */
  function Bump<K(==)>(gs: seq<Group<K>>, k: K): (r: seq<Group<K>>)
  {
    if gs == [] then [Group(k, 1)]
    else if gs[0].key == k then [Group(k, gs[0].count + 1)] + gs[1..]
    else [gs[0]] + Bump(gs[1..], k)
  }

  /** The groups of `keys`, one per distinct key. */
  function GroupCount<K(==)>(keys: seq<K>): (r: seq<Group<K>>)
  {
    if keys == [] then [] else Bump(GroupCount(keys[..|keys| - 1]), keys[|keys| - 1])
  }

  /** The row count of key k's group, 0 when there is none. */
  function CountOf<K(==)>(gs: seq<Group<K>>, k: K): nat
  {
    if gs == [] then 0 else if gs[0].key == k then gs[0].count else CountOf(gs[1..], k)
  }

  /** The sum of all group counts. */
  function TotalCount<K>(gs: seq<Group<K>>): nat
  {
    if gs == [] then 0 else gs[0].count + TotalCount(gs[1..])
  }

  /** The counts alone, `[g['n'] for g in groups]`. */
  function Counts<K>(gs: seq<Group<K>>): (r: seq<nat>)
    ensures |r| == |gs|
    ensures forall i :: 0 <= i < |gs| ==> r[i] == gs[i].count
  {
    if gs == [] then [] else [gs[0].count] + Counts(gs[1..])
  }

  ghost predicate WellFormed<K>(gs: seq<Group<K>>) {
    (forall i, j :: 0 <= i < j < |gs| ==> gs[i].key != gs[j].key) &&
    (forall i :: 0 <= i < |gs| ==> gs[i].count >= 1)
  }

  lemma BumpSpec<K>(gs: seq<Group<K>>, k: K)
    requires WellFormed(gs)
    ensures WellFormed(Bump(gs, k))
    ensures forall x :: CountOf(Bump(gs, k), x) == CountOf(gs, x) + (if x == k then 1 else 0)
    ensures TotalCount(Bump(gs, k)) == TotalCount(gs) + 1
    ensures forall g :: g in Bump(gs, k) ==> g.key == k || g.key in KeySet(gs)
  {
    BumpKeys(gs, k);
    BumpWellFormed(gs, k);
    BumpCounts(gs, k);
  }

  /** Bumping adds no key but the bumped one. */
  lemma {:induction false} BumpKeys<K>(gs: seq<Group<K>>, k: K)
    ensures forall g :: g in Bump(gs, k) ==> g.key == k || g.key in KeySet(gs)
  {
    if gs != [] && gs[0].key != k {
      BumpKeys(gs[1..], k);
      forall g | g in Bump(gs, k) ensures g.key == k || g.key in KeySet(gs) {
        if g != gs[0] {
          assert g in Bump(gs[1..], k);
          if g.key != k {
            var h :| h in gs[1..] && h.key == g.key;
            assert h in gs;
          }
        }
      }
    }
  }

  /** Bumping keeps the keys distinct and the groups non-empty. */
  lemma {:induction false} BumpWellFormed<K>(gs: seq<Group<K>>, k: K)
    requires WellFormed(gs)
    ensures WellFormed(Bump(gs, k))
  {
    if gs != [] && gs[0].key != k {
      assert WellFormed(gs[1..]);
      BumpWellFormed(gs[1..], k);
      BumpKeys(gs[1..], k);
      var r := Bump(gs, k);
      assert r == [gs[0]] + Bump(gs[1..], k);
      forall j | 1 <= j < |r| ensures r[j].key != gs[0].key {
        assert r[j] in Bump(gs[1..], k);
        if r[j].key != k {
          assert r[j].key in KeySet(gs[1..]);
        }
      }
    }
  }

  /** Bumping adds one to the bumped key's count and to the total, and nothing else. */
  lemma {:induction false} BumpCounts<K>(gs: seq<Group<K>>, k: K)
    ensures forall x :: CountOf(Bump(gs, k), x) == CountOf(gs, x) + (if x == k then 1 else 0)
    ensures TotalCount(Bump(gs, k)) == TotalCount(gs) + 1
  {
    if gs != [] && gs[0].key != k {
      BumpCounts(gs[1..], k);
    }
    if gs != [] && gs[0].key == k {
      assert Bump(gs, k)[1..] == gs[1..];
    }
  }

  /** The keys present in a list of groups. */
  ghost function KeySet<K>(gs: seq<Group<K>>): set<K> {
    set g | g in gs :: g.key
  }

  /**
   * Grouping is exact: one group per distinct key, each key's count is the
   * number of rows carrying it, no group is empty, and the counts add up to
   * the number of rows.
   */
  lemma {:induction false} GroupCountSpec<K>(keys: seq<K>)
    ensures WellFormed(GroupCount(keys))
    ensures forall k :: CountOf(GroupCount(keys), k) == multiset(keys)[k]
    ensures TotalCount(GroupCount(keys)) == |keys|
    ensures forall g :: g in GroupCount(keys) ==> g.key in keys
  {
    if keys != [] {
      var init := keys[..|keys| - 1];
      var last := keys[|keys| - 1];
      GroupCountSpec(init);
      BumpSpec(GroupCount(init), last);
      assert keys == init + [last];
      forall g | g in GroupCount(keys) ensures g.key in keys {
        if g.key != last {
          var h :| h in GroupCount(init) && h.key == g.key;
        }
      }
    }
  }

  /** The total of the counts is the total of the groups. */
  lemma {:induction false} CountsTotal<K>(gs: seq<Group<K>>)
    ensures SumCounts(Counts(gs)) == TotalCount(gs)
  {
    if gs != [] {
      CountsTotal(gs[1..]);
      assert Counts(gs)[1..] == Counts(gs[1..]);
    }
  }

  /** `sum(counts)`, front to back. */
  function SumCounts(s: seq<nat>): nat
  {
    if s == [] then 0 else s[0] + SumCounts(s[1..])
  }

  /** The distinct keys of a list, in order of first appearance (`values(key).distinct()`). */
  function Distinct<K(==,!new)>(keys: seq<K>): (r: seq<K>)
    ensures forall i, j :: 0 <= i < j < |r| ==> r[i] != r[j]
    ensures forall k :: k in r <==> k in keys
  {
    GroupCountSpec(keys);
    var gs := GroupCount(keys);
    forall k | k in keys ensures exists i :: 0 <= i < |gs| && gs[i].key == k {
      assert multiset(keys)[k] > 0;
      CountOfPositive(gs, k);
    }
    forall k | (exists i :: 0 <= i < |gs| && gs[i].key == k) ensures k in keys {
      var i :| 0 <= i < |gs| && gs[i].key == k;
      assert gs[i] in gs;
    }
    var r := seq(|gs|, i requires 0 <= i < |gs| => gs[i].key);
    assert forall k :: k in r <==> exists i :: 0 <= i < |gs| && gs[i].key == k by {
      forall k | k in r ensures exists i :: 0 <= i < |gs| && gs[i].key == k {
        var i :| 0 <= i < |r| && r[i] == k;
      }
      forall k | (exists i :: 0 <= i < |gs| && gs[i].key == k) ensures k in r {
        var i :| 0 <= i < |gs| && gs[i].key == k;
        assert r[i] == k;
      }
    }
    r
  }

  /** A key with a positive count has a group. */
  lemma {:induction false} CountOfPositive<K>(gs: seq<Group<K>>, k: K)
    requires CountOf(gs, k) > 0
    ensures exists i :: 0 <= i < |gs| && gs[i].key == k
  {
    if gs[0].key != k {
      CountOfPositive(gs[1..], k);
      var i :| 0 <= i < |gs[1..]| && gs[1..][i].key == k;
      assert gs[i + 1].key == k;
    }
  }

  // ------------------------------------------------------------ group sums

  /** `values(key).annotate(total=Sum(...))`: one total per distinct key. */
  datatype Total<K> = Total(key: K, sum: real)

  /** The position of key k's total (the first, and only, one), or -1. */
  function IndexOf<K(==)>(ts: seq<Total<K>>, k: K): (i: int)
    ensures -1 <= i < |ts|
    ensures i >= 0 ==> ts[i].key == k && forall j :: 0 <= j < i ==> ts[j].key != k
    ensures i < 0 ==> forall j :: 0 <= j < |ts| ==> ts[j].key != k
  {
    if ts == [] then -1
    else if ts[0].key == k then 0
    else
      var i := IndexOf(ts[1..], k);
      if i < 0 then -1 else i + 1
  }

  /** Add v to key k's total, opening a new total at the end for a new key. */
  function AddTo<K(==)>(ts: seq<Total<K>>, k: K, v: real): seq<Total<K>>
  {
    var i := IndexOf(ts, k);
    if i < 0 then ts + [Total(k, v)] else ts[i := Total(k, ts[i].sum + v)]
  }

  /** The totals of (key, value) pairs, keys in order of first appearance. */
  function GroupSum<K(==)>(pairs: seq<(K, real)>): seq<Total<K>>
  {
    if pairs == [] then []
    else
      var last := pairs[|pairs| - 1];
      AddTo(GroupSum(pairs[..|pairs| - 1]), last.0, last.1)
  }

  /** Key k's total, 0 when k has none (`dict.get(k, 0)`). */
  function SumOf<K(==)>(ts: seq<Total<K>>, k: K): real
  {
    var i := IndexOf(ts, k);
    if i < 0 then 0.0 else ts[i].sum
  }

  /** The values carried by key k, in order. */
  function ValuesOf<K(==)>(pairs: seq<(K, real)>, k: K): seq<real>
  {
    if pairs == [] then []
    else
      var last := pairs[|pairs| - 1];
      ValuesOf(pairs[..|pairs| - 1], k) + (if last.0 == k then [last.1] else [])
  }

  /** All values, in order. */
  function Values<K>(pairs: seq<(K, real)>): (r: seq<real>)
    ensures |r| == |pairs| && forall i :: 0 <= i < |pairs| ==> r[i] == pairs[i].1
  {
    seq(|pairs|, i requires 0 <= i < |pairs| => pairs[i].1)
  }

  /** The totals alone. */
  function Sums<K>(ts: seq<Total<K>>): (r: seq<real>)
    ensures |r| == |ts| && forall i :: 0 <= i < |ts| ==> r[i] == ts[i].sum
  {
    seq(|ts|, i requires 0 <= i < |ts| => ts[i].sum)
  }

  ghost predicate DistinctKeys<K>(ts: seq<Total<K>>) {
    forall i, j :: 0 <= i < j < |ts| ==> ts[i].key != ts[j].key
  }

  ghost function PairKeys<K>(pairs: seq<(K, real)>): set<K> {
    set p | p in pairs :: p.0
  }

  /** Adding v to one entry of a list adds v to its sum. */
  lemma {:induction false} SumUpdate(s: seq<real>, i: nat, v: real)
    requires i < |s|
    ensures Sum(s[i := s[i] + v]) == Sum(s) + v
    decreases |s|
  {
    var t := s[i := s[i] + v];
    if i < |s| - 1 {
      assert t[..|t| - 1] == s[..|s| - 1][i := s[i] + v];
      SumUpdate(s[..|s| - 1], i, v);
    } else {
      assert t[..|t| - 1] == s[..|s| - 1];
    }
  }

  lemma AddToSpec<K>(ts: seq<Total<K>>, k: K, v: real)
    requires DistinctKeys(ts)
    ensures DistinctKeys(AddTo(ts, k, v))
    ensures forall x :: SumOf(AddTo(ts, k, v), x) == SumOf(ts, x) + (if x == k then v else 0.0)
    ensures forall x :: IndexOf(AddTo(ts, k, v), x) >= 0 <==> IndexOf(ts, x) >= 0 || x == k
    ensures Sum(Sums(AddTo(ts, k, v))) == Sum(Sums(ts)) + v
  {
    if IndexOf(ts, k) < 0 {
      AddToNew(ts, k, v);
    } else {
      AddToExisting(ts, k, v);
    }
  }

  /** A new key opens a total of its own at the end. */
  lemma AddToNew<K>(ts: seq<Total<K>>, k: K, v: real)
    requires DistinctKeys(ts) && IndexOf(ts, k) < 0
    ensures DistinctKeys(AddTo(ts, k, v))
    ensures forall x :: SumOf(AddTo(ts, k, v), x) == SumOf(ts, x) + (if x == k then v else 0.0)
    ensures forall x :: IndexOf(AddTo(ts, k, v), x) >= 0 <==> IndexOf(ts, x) >= 0 || x == k
    ensures Sum(Sums(AddTo(ts, k, v))) == Sum(Sums(ts)) + v
  {
    var r := AddTo(ts, k, v);
    assert r == ts + [Total(k, v)];
    assert Sums(r) == Sums(ts) + [v];
    assert Sums(r)[..|Sums(r)| - 1] == Sums(ts);
    forall x ensures SumOf(r, x) == SumOf(ts, x) + (if x == k then v else 0.0) {
      var j := IndexOf(ts, x);
      var jr := IndexOf(r, x);
      if 0 <= jr < |ts| { assert r[jr] == ts[jr]; }
      if j >= 0 { assert r[j] == ts[j]; }
      if x == k { assert r[|ts|].key == k; }
    }
    forall x ensures IndexOf(r, x) >= 0 <==> IndexOf(ts, x) >= 0 || x == k {
      var j := IndexOf(ts, x);
      if j >= 0 { assert r[j] == ts[j]; }
      if x == k { assert r[|ts|].key == k; }
    }
  }

  /** A known key's total grows in place. */
  lemma AddToExisting<K>(ts: seq<Total<K>>, k: K, v: real)
    requires DistinctKeys(ts) && IndexOf(ts, k) >= 0
    ensures DistinctKeys(AddTo(ts, k, v))
    ensures forall x :: SumOf(AddTo(ts, k, v), x) == SumOf(ts, x) + (if x == k then v else 0.0)
    ensures forall x :: IndexOf(AddTo(ts, k, v), x) >= 0 <==> IndexOf(ts, x) >= 0 || x == k
    ensures Sum(Sums(AddTo(ts, k, v))) == Sum(Sums(ts)) + v
  {
    ExistingKeys(ts, k, v);
    ExistingSums(ts, k, v);
    ExistingTotal(ts, k, v);
  }

  /** For a known key, adding is an update at its position. */
  lemma AddToFound<K>(ts: seq<Total<K>>, k: K, v: real)
    requires IndexOf(ts, k) >= 0
    ensures var i := IndexOf(ts, k);
      ts[i].key == k && AddTo(ts, k, v) == ts[i := Total(k, ts[i].sum + v)]
  {
  }

  /** Growing a known key's total keeps the keys as they were. */
  lemma ExistingKeys<K>(ts: seq<Total<K>>, k: K, v: real)
    requires DistinctKeys(ts) && IndexOf(ts, k) >= 0
    ensures DistinctKeys(AddTo(ts, k, v))
    ensures forall x :: IndexOf(AddTo(ts, k, v), x) >= 0 <==> IndexOf(ts, x) >= 0 || x == k
  {
    var i := IndexOf(ts, k);
    var r := ts[i := Total(k, ts[i].sum + v)];
    assert AddTo(ts, k, v) == r by {
      AddToFound(ts, k, v);
    }
    assert DistinctKeys(r) && forall x :: IndexOf(r, x) == IndexOf(ts, x) by {
      SameKeys(ts, r);
    }
  }

  /** Growing a known key's total adds v to that key's sum and to no other. */
  lemma ExistingSums<K>(ts: seq<Total<K>>, k: K, v: real)
    requires DistinctKeys(ts) && IndexOf(ts, k) >= 0
    ensures forall x :: SumOf(AddTo(ts, k, v), x) == SumOf(ts, x) + (if x == k then v else 0.0)
  {
    var i := IndexOf(ts, k);
    var t := Total(k, ts[i].sum + v);
    assert AddTo(ts, k, v) == ts[i := t] by {
      AddToFound(ts, k, v);
    }
    assert forall x :: SumOf(ts[i := t], x) == SumOf(ts, x) + (if x == k then v else 0.0) by {
      SameKeys(ts, ts[i := t]);
      GrownSums(ts, i, t);
      assert SumOf(ts, k) == ts[i].sum;
    }
  }

  /** Growing a known key's total adds v to the sum of all totals. */
  lemma ExistingTotal<K>(ts: seq<Total<K>>, k: K, v: real)
    requires IndexOf(ts, k) >= 0
    ensures Sum(Sums(AddTo(ts, k, v))) == Sum(Sums(ts)) + v
  {
    var i := IndexOf(ts, k);
    var s := Sums(ts);
    assert Sums(AddTo(ts, k, v)) == s[i := s[i] + v] by {
      AddToFound(ts, k, v);
    }
    assert Sum(s[i := s[i] + v]) == Sum(s) + v by {
      SumUpdate(s, i, v);
    }
  }

  /** Growing the total at position i changes the sum found for its key only. */
  lemma GrownSums<K>(ts: seq<Total<K>>, i: nat, t: Total<K>)
    requires i < |ts| && IndexOf(ts, t.key) == i
    requires forall x :: IndexOf(ts[i := t], x) == IndexOf(ts, x)
    ensures forall x :: SumOf(ts[i := t], x) == if x == t.key then t.sum else SumOf(ts, x)
  {
    forall x ensures SumOf(ts[i := t], x) == if x == t.key then t.sum else SumOf(ts, x) {
      var j := IndexOf(ts, x);
      if j >= 0 && x != t.key {
        assert j != i;
      }
    }
  }

  /** Two lists with the same key at every position find every key at the same place. */
  lemma SameKeys<K>(ts: seq<Total<K>>, r: seq<Total<K>>)
    requires |r| == |ts| && forall j :: 0 <= j < |ts| ==> r[j].key == ts[j].key
    ensures DistinctKeys(ts) ==> DistinctKeys(r)
    ensures forall x :: IndexOf(r, x) == IndexOf(ts, x)
  {
    forall x ensures IndexOf(r, x) == IndexOf(ts, x) {
      var j, jr := IndexOf(ts, x), IndexOf(r, x);
      if j >= 0 && jr >= 0 {
        assert !(j < jr) && !(jr < j);
      }
    }
  }

  /**
   * Summing by key is exact: one total per distinct key that occurs, each
   * key's total is the sum of its values, and the totals add up to the sum
   * of all values.
   */
  lemma {:induction false} GroupSumSpec<K>(pairs: seq<(K, real)>)
    ensures DistinctKeys(GroupSum(pairs))
    ensures forall k :: SumOf(GroupSum(pairs), k) == Sum(ValuesOf(pairs, k))
    ensures forall k :: IndexOf(GroupSum(pairs), k) >= 0 <==> k in PairKeys(pairs)
    ensures Sum(Sums(GroupSum(pairs))) == Sum(Values(pairs))
  {
    if pairs != [] {
      var init, last := pairs[..|pairs| - 1], pairs[|pairs| - 1];
      GroupSumSpec(init);
      AddToSpec(GroupSum(init), last.0, last.1);
      assert pairs == init + [last];
      assert Values(pairs) == Values(init) + [last.1];
      assert Values(pairs)[..|pairs| - 1] == Values(init);
      forall k ensures SumOf(GroupSum(pairs), k) == Sum(ValuesOf(pairs, k)) {
        if last.0 == k {
          assert Sum(ValuesOf(init, k) + [last.1]) == Sum(ValuesOf(init, k)) + last.1 by {
            assert (ValuesOf(init, k) + [last.1])[..|ValuesOf(init, k)|] == ValuesOf(init, k);
          }
        } else {
          assert ValuesOf(pairs, k) == ValuesOf(init, k);
        }
      }
      assert PairKeys(pairs) == PairKeys(init) + {last.0};
    }
  }
}
