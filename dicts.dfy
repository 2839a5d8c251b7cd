/** Python dictionaries as the analysis code uses them: insertion-ordered
    key/value pairs, where assigning to a present key keeps its position and
    assigning to a new key appends it. Also the list idioms the code relies
    on: `sorted` over integer keys, the tail slice `s[-n:]` and the
    order-preserving de-duplication loop. */
module Dicts {
  import opened Wrappers

  type Dict<K, V> = seq<(K, V)>

  function Keys<K, V>(d: Dict<K, V>): seq<K>
  {
    seq(|d|, i requires 0 <= i < |d| => d[i].0)
  }

  lemma KeysAppend<K, V>(d: Dict<K, V>, e: (K, V))
    ensures Keys(d + [e]) == Keys(d) + [e.0]
  {
  }

  /** The keys of a non-empty dict are those of all but its last entry,
      then the last entry's. */
  lemma KeysLast<K, V>(d: Dict<K, V>)
    requires d != []
    ensures Keys(d) == Keys(d[..|d| - 1]) + [d[|d| - 1].0]
  {
    assert d == d[..|d| - 1] + [d[|d| - 1]];
    KeysAppend(d[..|d| - 1], d[|d| - 1]);
  }

  function Values<K, V>(d: Dict<K, V>): seq<V>
  {
    seq(|d|, i requires 0 <= i < |d| => d[i].1)
  }

  /** The dict with f applied to every value, keys and order kept. */
  function MapValues<K, V, W>(d: Dict<K, V>, f: V -> W): (r: Dict<K, W>)
    ensures |r| == |d| && Keys(r) == Keys(d)
    ensures forall i :: 0 <= i < |r| ==> r[i] == (d[i].0, f(d[i].1))
  {
    seq(|d|, i requires 0 <= i < |d| => (d[i].0, f(d[i].1)))
  }

  lemma MapValuesStep<K, V, W>(d: Dict<K, V>, f: V -> W, j: nat)
    requires j < |d|
    ensures MapValues(d[..j + 1], f) == MapValues(d[..j], f) + [(d[j].0, f(d[j].1))]
  {
    var a, b := MapValues(d[..j + 1], f), MapValues(d[..j], f) + [(d[j].0, f(d[j].1))];
    assert |a| == |b|;
    forall i | 0 <= i < |a|
      ensures a[i] == b[i]
    {
      if i < j {
        assert b[i] == MapValues(d[..j], f)[i];
      }
    }
  }

  predicate NoDuplicates<T(==)>(s: seq<T>)
  {
    forall i, j :: 0 <= i < j < |s| ==> s[i] != s[j]
  }

  /** What every Python dict satisfies: each key occurs once. */
  predicate DistinctKeys<K(==), V>(d: Dict<K, V>)
  {
    NoDuplicates(Keys(d))
  }

  /** `d.get(k)`: the value stored under k, None when k is absent. */
  function Get<K(==), V>(d: Dict<K, V>, k: K): (r: Option<V>)
    ensures r.Some? <==> k in Keys(d)
    ensures r.Some? ==> (k, r.value) in d
    ensures r.None? ==> forall i :: 0 <= i < |d| ==> d[i].0 != k
  {
    if d == [] then None
    else if d[0].0 == k then
      assert Keys(d)[0] == k;
      Some(d[0].1)
    else
      assert Keys(d) == [d[0].0] + Keys(d[1..]);
      Get(d[1..], k)
  }

  /** The last entry's key differs from every earlier key of a dict. */
  lemma LastKeyNew<K, V>(o: Dict<K, V>)
    requires o != [] && DistinctKeys(o)
    ensures o[|o| - 1].0 !in Keys(o[..|o| - 1])
    ensures DistinctKeys(o[..|o| - 1])
  {
    var n := |o| - 1;
    var init := o[..n];
    assert Keys(init) == Keys(o)[..n];
    forall j | 0 <= j < n
      ensures Keys(init)[j] != o[n].0
    {
      assert Keys(o)[j] != Keys(o)[n];
    }
  }

  /** Every entry after storing (k, v) was already an entry, or is (k, v). */
  lemma PutValues<K(!new), V>(d: Dict<K, V>, k: K, v: V)
    ensures forall i :: 0 <= i < |Put(d, k, v)| ==> Put(d, k, v)[i] in d || Put(d, k, v)[i] == (k, v)
    decreases |d|
  {
    if d != [] && d[0].0 != k {
      PutValues(d[1..], k, v);
      forall i | 0 <= i < |Put(d, k, v)|
        ensures Put(d, k, v)[i] in d || Put(d, k, v)[i] == (k, v)
      {
        if i > 0 {
          assert Put(d, k, v)[i] == Put(d[1..], k, v)[i - 1];
        }
      }
    }
  }

  /** The entries of `d` whose value satisfies p, stored one at a time by
      `d2[k] = v` in d's order. */
  function KeepWhere<K(==,!new), V>(d: Dict<K, V>, p: V -> bool): (r: Dict<K, V>)
    ensures DistinctKeys(r)
    ensures forall i :: 0 <= i < |r| ==> p(r[i].1)
    decreases |d|
  {
    if d == [] then []
    else
      var init := KeepWhere(d[..|d| - 1], p);
      var e := d[|d| - 1];
      if p(e.1) then
        PutValues(init, e.0, e.1);
        Put(init, e.0, e.1)
      else init
  }

  lemma KeepWhereStep<K(!new), V>(d: Dict<K, V>, p: V -> bool, i: nat)
    requires i < |d|
    ensures KeepWhere(d[..i + 1], p) ==
      if p(d[i].1) then Put(KeepWhere(d[..i], p), d[i].0, d[i].1) else KeepWhere(d[..i], p)
  {
    assert d[..i + 1][..i] == d[..i];
  }

  lemma {:induction false} KeepWhereKeys<K(!new), V>(d: Dict<K, V>, p: V -> bool)
    ensures forall c :: c in Keys(KeepWhere(d, p)) ==> c in Keys(d)
    decreases |d|
  {
    if d != [] {
      var k := |d| - 1;
      KeepWhereKeys(d[..k], p);
      assert Keys(d[..k]) == Keys(d)[..k];
      assert Keys(d)[k] == d[k].0;
    }
  }

  /** With distinct keys, an entry is kept, unchanged, exactly when its
      value satisfies p. */
  lemma {:induction false} KeepWhereGet<K(!new), V>(d: Dict<K, V>, p: V -> bool, i: nat)
    requires DistinctKeys(d) && i < |d|
    ensures Get(KeepWhere(d, p), d[i].0) == if p(d[i].1) then Some(d[i].1) else None
    decreases |d|
  {
    var k := |d| - 1;
    var head := d[..k];
    LastKeyNew(d);
    KeepWhereStep(d, p, k);
    assert d[..k + 1] == d;
    if i < k {
      assert d[i].0 != d[k].0 by {
        assert Keys(d)[i] != Keys(d)[k];
      }
      assert head[i] == d[i];
      KeepWhereGet(head, p, i);
    } else {
      KeepWhereKeys(head, p);
    }
  }

  /** In a dict with distinct keys, the entry at position i is what `d[key]`
      returns for its key. */
  lemma {:induction false} GetAt<K, V>(d: Dict<K, V>, i: nat)
    requires DistinctKeys(d) && i < |d|
    ensures Get(d, d[i].0) == Some(d[i].1)
  {
    if i > 0 {
      assert Keys(d[1..]) == Keys(d)[1..];
      assert d[0].0 != d[i].0 by { assert Keys(d)[0] != Keys(d)[i]; }
      GetAt(d[1..], i - 1);
    }
  }

  /** `d[k] = v`. */
  function Put<K(==,!new), V>(d: Dict<K, V>, k: K, v: V): (r: Dict<K, V>)
    ensures k in Keys(d) ==> Keys(r) == Keys(d)
    ensures k !in Keys(d) ==> Keys(r) == Keys(d) + [k]
    ensures Get(r, k) == Some(v)
    ensures forall k' :: k' != k ==> Get(r, k') == Get(d, k')
    ensures DistinctKeys(d) ==> DistinctKeys(r)
  {
    if d == [] then [(k, v)]
    else if d[0].0 == k then
      assert Keys([(k, v)] + d[1..]) == [k] + Keys(d[1..]);
      assert Keys(d) == [k] + Keys(d[1..]);
      [(k, v)] + d[1..]
    else
      var rest := Put(d[1..], k, v);
      assert Keys(d) == [d[0].0] + Keys(d[1..]);
      assert Keys([d[0]] + rest) == [d[0].0] + Keys(rest);
      assert DistinctKeys(d) ==> DistinctKeys([d[0]] + rest) by {
        if DistinctKeys(d) {
          assert [d[0]] + d[1..] == d;
          ConsDistinct(d[0], d[1..]);
          assert DistinctKeys(rest);
          assert d[0].0 !in Keys(rest);
          ConsDistinct(d[0], rest);
        }
      }
      [d[0]] + rest
  }

  /** Prepending an entry keeps the keys distinct exactly when its key is
      new. */
  lemma ConsDistinct<K, V>(e: (K, V), d: Dict<K, V>)
    ensures DistinctKeys([e] + d) <==> e.0 !in Keys(d) && DistinctKeys(d)
  {
    assert Keys([e] + d) == [e.0] + Keys(d);
    if DistinctKeys([e] + d) {
      forall i, j | 0 <= i < j < |d|
        ensures Keys(d)[i] != Keys(d)[j]
      {
        assert Keys(d)[i] == Keys([e] + d)[i + 1] && Keys(d)[j] == Keys([e] + d)[j + 1];
      }
      forall j | 0 <= j < |d|
        ensures Keys(d)[j] != e.0
      {
        assert Keys(d)[j] == Keys([e] + d)[j + 1] && e.0 == Keys([e] + d)[0];
      }
    }
  }

  /** `sum(f(v) for v in d.values())`, e.g. the sum of the hourly counters or of
      the per-date message counts. */
  function SumBy<K, V>(d: Dict<K, V>, f: V -> int): int
  {
    if d == [] then 0 else SumBy(d[..|d| - 1], f) + f(d[|d| - 1].1)
  }

  /** Assigning `d[k] = v` replaces the contribution of k's old value (none
      when k is new) by that of v. */
  lemma {:induction false} SumByPut<K(!new), V>(d: Dict<K, V>, k: K, v: V, f: V -> int)
    requires DistinctKeys(d)
    ensures SumBy(Put(d, k, v), f) ==
      SumBy(d, f) - (if Get(d, k).Some? then f(Get(d, k).value) else 0) + f(v)
    decreases |d|
  {
    if d == [] {
      assert Put(d, k, v) == [(k, v)];
      assert [(k, v)][..0] == [];
    } else if d[0].0 == k {
      SumByCons((k, v), d[1..], f);
      SumByCons(d[0], d[1..], f);
      assert [d[0]] + d[1..] == d;
    } else {
      var rest := d[1..];
      assert Keys(rest) == Keys(d)[1..];
      assert Get(d, k) == Get(rest, k);
      SumByPut(rest, k, v, f);
      assert Put(d, k, v) == [d[0]] + Put(rest, k, v);
      SumByCons(d[0], Put(rest, k, v), f);
      SumByCons(d[0], rest, f);
      assert [d[0]] + rest == d;
    }
  }

  lemma {:induction false} SumByCons<K, V>(e: (K, V), d: Dict<K, V>, f: V -> int)
    ensures SumBy([e] + d, f) == f(e.1) + SumBy(d, f)
    decreases |d|
  {
    if d != [] {
      assert ([e] + d)[..|d|] == [e] + d[..|d| - 1];
      SumByCons(e, d[..|d| - 1], f);
    } else {
      assert ([e] + d)[..0] == [];
    }
  }

  /** `sum(d.values())` of a dict of counters. */
  function Total<K>(d: Dict<K, int>): int
  {
    SumBy(d, (n: int) => n)
  }

  /** `counter[k] += 1` on a `defaultdict(int)`. */
  function Bump<K(==,!new)>(d: Dict<K, int>, k: K): Dict<K, int>
  {
    Put(d, k, Get(d, k).GetOr(0) + 1)
  }

  /** The counters after `counter[k] += 1` for each k of ks in turn,
      starting from d. */
  function CountInto<K(==,!new)>(d: Dict<K, int>, ks: seq<K>): Dict<K, int>
    decreases |ks|
  {
    if ks == [] then d else Bump(CountInto(d, ks[..|ks| - 1]), ks[|ks| - 1])
  }

  /** The counters of a fresh `defaultdict(int)` after ks. */
  function Tally<K(==,!new)>(ks: seq<K>): Dict<K, int>
  {
    CountInto([], ks)
  }

  /** Counting one more key is one more `+= 1`. */
  lemma {:induction false} CountIntoStep<K(!new)>(d: Dict<K, int>, ks: seq<K>, i: nat)
    requires i < |ks|
    ensures CountInto(d, ks[..i + 1]) == Bump(CountInto(d, ks[..i]), ks[i])
  {
    assert ks[..i + 1][..i] == ks[..i];
  }

  /** Counting a + b is counting a, then b. */
  lemma {:induction false} CountIntoAppend<K(!new)>(d: Dict<K, int>, a: seq<K>, b: seq<K>)
    ensures CountInto(d, a + b) == CountInto(CountInto(d, a), b)
    decreases |b|
  {
    if b != [] {
      var b' := b[..|b| - 1];
      assert (a + b)[..|a + b| - 1] == a + b';
      CountIntoAppend(d, a, b');
    } else {
      assert a + b == a;
    }
  }

  /** Counting keeps the keys distinct, and exactly the keys of d and ks
      have counters. */
  lemma {:induction false} CountIntoKeys<K(!new)>(d: Dict<K, int>, ks: seq<K>)
    requires DistinctKeys(d)
    ensures DistinctKeys(CountInto(d, ks))
    ensures forall k :: k in Keys(CountInto(d, ks)) ==> k in Keys(d) || k in ks
    ensures forall k :: k in Keys(d) || k in ks ==> k in Keys(CountInto(d, ks))
    decreases |ks|
  {
    if ks != [] {
      var init := ks[..|ks| - 1];
      CountIntoKeys(d, init);
      assert ks == init + [ks[|ks| - 1]];
    }
  }

  /** Each counter grows by the number of times its key occurs in ks. */
  lemma {:induction false} CountIntoCounts<K(!new)>(d: Dict<K, int>, ks: seq<K>, k: K)
    ensures Get(CountInto(d, ks), k).GetOr(0) == Get(d, k).GetOr(0) + multiset(ks)[k]
    decreases |ks|
  {
    if ks != [] {
      var init := ks[..|ks| - 1];
      assert ks == init + [ks[|ks| - 1]];
      CountIntoCounts(d, init, k);
    }
  }

  /** The counters grow in sum by the number of increments. */
  lemma {:induction false} CountIntoTotal<K(!new)>(d: Dict<K, int>, ks: seq<K>)
    requires DistinctKeys(d)
    ensures Total(CountInto(d, ks)) == Total(d) + |ks|
    decreases |ks|
  {
    if ks != [] {
      var init := ks[..|ks| - 1];
      var k := ks[|ks| - 1];
      CountIntoTotal(d, init);
      CountIntoKeys(d, init);
      BumpTotal(CountInto(d, init), k);
    }
  }

  /** One increment adds one to the total. */
  lemma BumpTotal<K(!new)>(c: Dict<K, int>, k: K)
    requires DistinctKeys(c)
    ensures Total(Bump(c, k)) == Total(c) + 1
  {
    var f := (n: int) => n;
    var count := Get(c, k).GetOr(0);
    SumByPut(c, k, count + 1, f);
    assert (if Get(c, k).Some? then f(Get(c, k).value) else 0) == count;
    assert Bump(c, k) == Put(c, k, count + 1);
  }

  /** Each counter of a tally holds the number of times its key occurred. */
  lemma TallyCounts<K(!new)>(ks: seq<K>, k: K)
    ensures Get(Tally(ks), k).GetOr(0) == multiset(ks)[k]
  {
    CountIntoCounts([], ks, k);
  }

  /** The counters of a tally add up to the number of keys counted, and
      exactly the keys counted have counters. */
  lemma TallyTotal<K(!new)>(ks: seq<K>)
    ensures Total(Tally(ks)) == |ks|
    ensures DistinctKeys(Tally(ks))
    ensures forall k :: k in Keys(Tally(ks)) <==> k in ks
  {
    CountIntoTotal([], ks);
    CountIntoKeys([], ks);
  }

  predicate Sorted(s: seq<int>)
  {
    forall i, j :: 0 <= i < j < |s| ==> s[i] <= s[j]
  }

  predicate StrictlySorted(s: seq<int>)
  {
    forall i, j :: 0 <= i < j < |s| ==> s[i] < s[j]
  }

  /** Where `x` goes in the sorted list `s`: after every smaller element. */
  function Position(x: int, s: seq<int>): (i: nat)
    requires Sorted(s)
    ensures i <= |s|
    ensures forall j :: 0 <= j < i ==> s[j] < x
    ensures forall j :: i <= j < |s| ==> x <= s[j]
  {
    if s == [] || x <= s[0] then 0 else 1 + Position(x, s[1..])
  }

  function Insert(x: int, s: seq<int>): (r: seq<int>)
    requires Sorted(s)
    ensures Sorted(r)
    ensures multiset(r) == multiset(s) + multiset{x}
    ensures |r| == |s| + 1
  {
    var i := Position(x, s);
    assert s == s[..i] + s[i..];
    var r := s[..i] + [x] + s[i..];
    assert forall j :: 0 <= j < |r| ==> r[j] == if j < i then s[j] else if j == i then x else s[j - 1];
    r
  }

  /** `sorted(s)` on integers. */
  function Sort(s: seq<int>): (r: seq<int>)
    ensures Sorted(r)
    ensures multiset(r) == multiset(s)
    ensures |r| == |s|
  {
    if s == [] then []
    else
      assert s == s[..|s| - 1] + [s[|s| - 1]];
      Insert(s[|s| - 1], Sort(s[..|s| - 1]))
  }

  /** Sorting a duplicate-free list yields a strictly increasing one. */
  lemma SortedDistinct(s: seq<int>, r: seq<int>)
    requires NoDuplicates(s) && Sorted(r) && multiset(r) == multiset(s)
    ensures StrictlySorted(r)
  {
    forall i, j | 0 <= i < j < |r|
      ensures r[i] < r[j]
    {
      if r[i] == r[j] {
        assert multiset(r)[r[i]] >= 2 by {
          assert r[..j + 1] == r[..i] + [r[i]] + r[i + 1..j] + [r[j]];
          assert r == r[..j + 1] + r[j + 1..];
        }
        MultiplicityOneWhenDistinct(s, r[i]);
      }
    }
  }

  lemma {:induction false} MultiplicityOneWhenDistinct<T>(s: seq<T>, x: T)
    requires NoDuplicates(s)
    ensures multiset(s)[x] <= 1
    decreases |s|
  {
    if s != [] {
      var init := s[..|s| - 1];
      assert s == init + [s[|s| - 1]];
      MultiplicityOneWhenDistinct(init, x);
      if s[|s| - 1] == x {
        assert x !in init;
      }
    }
  }

  /** A list without repeats has as many elements as the set of its elements. */
  lemma {:induction false} DistinctCard<T>(s: seq<T>)
    requires NoDuplicates(s)
    ensures |set x | x in s| == |s|
    decreases |s|
  {
    if s != [] {
      var init := s[..|s| - 1];
      var last := s[|s| - 1];
      DistinctCard(init);
      forall i | 0 <= i < |init|
        ensures init[i] != last
      {
        assert s[i] == init[i];
      }
      assert (set x | x in s) == (set x | x in init) + {last} by {
        assert s == init + [last];
      }
    }
  }

  /** The sorted keys of a dict with integer keys (dates), as
      `sorted(d.keys())` gives them. */
  function SortedKeys<V>(d: Dict<int, V>): (r: seq<int>)
    requires DistinctKeys(d)
    ensures StrictlySorted(r)
    ensures forall k :: k in r <==> k in Keys(d)
    ensures |r| == |d|
  {
    var r := Sort(Keys(d));
    SortedDistinct(Keys(d), r);
    assert forall k :: k in r <==> k in multiset(Keys(d));
    r
  }

  /** Python's `s[:n]` for a non-negative n: the first n items, or all of
      them when there are fewer. */
  function Take<T>(s: seq<T>, n: nat): (r: seq<T>)
    ensures |r| == if |s| <= n then |s| else n
    ensures r == s[..|r|]
  {
    if |s| <= n then s else s[..n]
  }

  /** `s[-n:] if len(s) >= n else s`, with Python's reading of a negative or
      zero n. */
  function TailWindow<T>(s: seq<T>, n: int): (w: seq<T>)
    ensures |w| <= |s| && w == s[|s| - |w|..]
    ensures n >= 1 ==> |w| == if n <= |s| then n else |s|
    ensures n == 0 ==> w == s
    ensures n < 0 ==> |w| == if -n <= |s| then |s| + n else 0
  {
    if |s| >= n then
      if n > 0 then s[|s| - n..]
      else if n == 0 then s
      else if -n <= |s| then s[-n..]
      else []
    else s
  }

  /** `list(reversed(s))`, i.e. `sorted(..., reverse=True)` of a sorted list. */
  function Reverse<T>(s: seq<T>): (r: seq<T>)
    ensures |r| == |s|
    ensures forall i :: 0 <= i < |s| ==> r[i] == s[|s| - 1 - i]
  {
    if s == [] then [] else [s[|s| - 1]] + Reverse(s[..|s| - 1])
  }

  lemma ReverseMembers<T>(s: seq<T>)
    ensures forall x :: x in Reverse(s) <==> x in s
  {
    forall x | x in s
      ensures x in Reverse(s)
    {
      var i :| 0 <= i < |s| && s[i] == x;
      assert Reverse(s)[|s| - 1 - i] == x;
    }
  }

  /** The list the `seen`-set loop builds: each element kept at its first
      occurrence. */
  function Dedup<T(==)>(s: seq<T>): (r: seq<T>)
    decreases |s|
  {
    if s == [] then []
    else
      var d := Dedup(s[..|s| - 1]);
      if s[|s| - 1] in d then d else d + [s[|s| - 1]]
  }

  lemma {:induction false} DedupMembers<T>(s: seq<T>)
    ensures NoDuplicates(Dedup(s))
    ensures forall x :: x in Dedup(s) ==> x in s
    ensures forall x :: x in s ==> x in Dedup(s)
    decreases |s|
  {
    if s != [] {
      var init := s[..|s| - 1];
      DedupMembers(init);
      assert s == init + [s[|s| - 1]];
    }
  }

  /** A list that already has no duplicates comes out unchanged. */
  lemma {:induction false} DedupIdentity<T>(s: seq<T>)
    requires NoDuplicates(s)
    ensures Dedup(s) == s
    decreases |s|
  {
    if s != [] {
      var init := s[..|s| - 1];
      DedupIdentity(init);
      assert s[|s| - 1] !in init;
    }
  }

  /** Position of the first occurrence of x in s. */
  function FirstIndex<T(==)>(s: seq<T>, x: T): (i: nat)
    requires x in s
    ensures i < |s| && s[i] == x
    ensures forall j :: 0 <= j < i ==> s[j] != x
  {
    if s[0] == x then 0 else 1 + FirstIndex(s[1..], x)
  }

  /** The kept elements appear in the order of their first occurrences. */
  lemma {:induction false} DedupFirstOccurrenceOrder<T>(s: seq<T>)
    ensures forall i, j :: 0 <= i < j < |Dedup(s)| ==>
      Dedup(s)[i] in s && Dedup(s)[j] in s &&
      FirstIndex(s, Dedup(s)[i]) < FirstIndex(s, Dedup(s)[j])
    decreases |s|
  {
    DedupMembers(s);
    if s != [] {
      var init := s[..|s| - 1];
      var x := s[|s| - 1];
      assert s == init + [x];
      DedupMembers(init);
      DedupFirstOccurrenceOrder(init);
      var d := Dedup(init);
      forall y | y in init
        ensures FirstIndex(s, y) == FirstIndex(init, y)
      {
        FirstIndexPrefix(init, [x], y);
      }
      if x !in d {
        assert x !in init;
        assert FirstIndex(s, x) == |init|;
        assert Dedup(s) == d + [x];
        forall i, j | 0 <= i < j < |Dedup(s)|
          ensures Dedup(s)[i] in s && Dedup(s)[j] in s &&
            FirstIndex(s, Dedup(s)[i]) < FirstIndex(s, Dedup(s)[j])
        {
          assert Dedup(s)[i] == d[i] && d[i] in d;
          InPrefix(init, [x], d[i]);
          if j < |d| {
            assert Dedup(s)[j] == d[j] && d[j] in d;
            InPrefix(init, [x], d[j]);
          }
        }
      } else {
        assert Dedup(s) == d;
      }
    }
  }

  lemma InPrefix<T>(a: seq<T>, b: seq<T>, y: T)
    requires y in a
    ensures y in a + b
  {
    var k :| 0 <= k < |a| && a[k] == y;
    assert (a + b)[k] == y;
  }

  lemma {:induction false} FirstIndexPrefix<T>(a: seq<T>, b: seq<T>, y: T)
    requires y in a
    ensures y in a + b && FirstIndex(a + b, y) == FirstIndex(a, y)
    decreases |a|
  {
    if a[0] != y {
      assert (a + b)[1..] == a[1..] + b;
      FirstIndexPrefix(a[1..], b, y);
    }
  }
}
