/**
 * Sequence operations the server takes from JavaScript arrays: filtering,
 * de-duplication keeping first occurrences, and the stable descending sort
 * that `Array.prototype.sort` performs with a `b - a` comparator.
 */
module SeqUtils {
  import opened JsText

  /** `s.filter(p)`. */
  function Filter<T>(s: seq<T>, p: T -> bool): (r: seq<T>)
    ensures |r| <= |s|
    ensures forall i :: 0 <= i < |r| ==> p(r[i])
    decreases |s|
  {
    if |s| == 0 then []
    else Filter(s[..|s| - 1], p) + (if p(s[|s| - 1]) then [s[|s| - 1]] else [])
  }

  lemma {:induction false} FilterConcat<T>(a: seq<T>, b: seq<T>, p: T -> bool)
    ensures Filter(a + b, p) == Filter(a, p) + Filter(b, p)
    decreases |b|
  {
    if |b| == 0 {
      assert a + b == a;
    } else {
      assert (a + b)[..|a + b| - 1] == a + b[..|b| - 1];
      FilterConcat(a, b[..|b| - 1], p);
    }
  }

  lemma FilterMembers<T(!new)>(s: seq<T>, p: T -> bool)
    ensures forall x :: x in Filter(s, p) <==> x in s && p(x)
    decreases |s|
  {
    if |s| > 0 {
      FilterMembers(s[..|s| - 1], p);
      assert s == s[..|s| - 1] + [s[|s| - 1]];
    }
  }

  /** The position of the first element satisfying `p`, if any. */
  function FirstIndexWhere<T>(s: seq<T>, p: T -> bool, from: nat): (r: Option<nat>)
    ensures r.Some? ==> from <= r.value < |s| && p(s[r.value]) && forall j :: from <= j < r.value ==> !p(s[j])
    ensures r.None? ==> forall j :: from <= j < |s| ==> !p(s[j])
    decreases |s| - from
  {
    if from >= |s| then None
    else if p(s[from]) then Some(from)
    else FirstIndexWhere(s, p, from + 1)
  }

  /** `s.filter(p)[0]`: the first element satisfying `p`, if any. */
  function FirstWhere<T>(s: seq<T>, p: T -> bool): (r: Option<T>)
    ensures r.Some? ==> exists i :: 0 <= i < |s| && s[i] == r.value && p(s[i]) && forall j :: 0 <= j < i ==> !p(s[j])
    ensures r.None? <==> forall i :: 0 <= i < |s| ==> !p(s[i])
  {
    match FirstIndexWhere(s, p, 0)
    case Some(i) => Some(s[i])
    case None => None
  }

  /** `ts.forEach(t => out.push(mk(t)))` appends this to `out`. */
  function Each<T, U>(ts: seq<T>, mk: T -> U): (r: seq<U>)
    ensures |r| == |ts|
    ensures forall i :: 0 <= i < |ts| ==> r[i] == mk(ts[i])
  {
    seq(|ts|, i requires 0 <= i < |ts| => mk(ts[i]))
  }

  /** `forEach` with `push`: the loop that appends one element per item. */
  method AppendEach<T, U>(out: seq<U>, ts: seq<T>, mk: T -> U) returns (r: seq<U>)
    ensures r == out + Each(ts, mk)
  {
    r := out;
    var i := 0;
    while i < |ts|
      invariant 0 <= i <= |ts|
      invariant r == out + Each(ts[..i], mk)
    {
      assert Each(ts[..i + 1], mk) == Each(ts[..i], mk) + [mk(ts[i])];
      r := r + [mk(ts[i])];
      i := i + 1;
    }
    assert ts[..i] == ts;
  }

  /** `s.slice(0, n)` for `n >= 0`. */
  function Take<T>(s: seq<T>, n: nat): (r: seq<T>)
    ensures |r| == if |s| < n then |s| else n
    ensures r <= s
  {
    if |s| < n then s else s[..n]
  }

  predicate Distinct<T(==)>(s: seq<T>) {
    forall i, j :: 0 <= i < j < |s| ==> s[i] != s[j]
  }

  /**
   * Keeps the first occurrence of every value, in order: the loop that
   * pushes an element when the result does not include it yet.
   */
  function Dedup<T(==,!new)>(s: seq<T>): (r: seq<T>)
    ensures Distinct(r)
    ensures forall x :: x in r <==> x in s
    decreases |s|
  {
    if |s| == 0 then []
    else
      var p := Dedup(s[..|s| - 1]);
      assert s == s[..|s| - 1] + [s[|s| - 1]];
      if s[|s| - 1] in p then p else p + [s[|s| - 1]]
  }

  /** One step of `DedupBy`: the new element is appended unless its key was kept already. */
  lemma DedupBySnoc<T(!new), K>(p: seq<T>, x: T, key: T -> K)
    ensures DedupBy(p + [x], key)
         == if key(x) in Keys(DedupBy(p, key), key) then DedupBy(p, key) else DedupBy(p, key) + [x]
  {
    assert (p + [x])[..|p + [x]| - 1] == p;
  }

  lemma KeysSnoc<T, K>(p: seq<T>, x: T, key: T -> K)
    ensures Keys(p + [x], key) == Keys(p, key) + [key(x)]
  {
  }

  /**
   * De-duplicating a longer list only appends: the first occurrences found
   * in `a` stay in front, in their order.
   */
  lemma {:induction false} DedupPrefix<T(!new)>(a: seq<T>, b: seq<T>)
    ensures Dedup(a) <= Dedup(a + b)
    decreases |b|
  {
    if |b| == 0 {
      assert a + b == a;
    } else {
      assert (a + b)[..|a + b| - 1] == a + b[..|b| - 1];
      DedupPrefix(a, b[..|b| - 1]);
    }
  }

  /** One step of `Dedup`: the new element is appended unless already kept. */
  lemma DedupSnoc<T(!new)>(p: seq<T>, x: T)
    ensures Dedup(p + [x]) == if x in p then Dedup(p) else Dedup(p) + [x]
  {
    assert (p + [x])[..|p + [x]| - 1] == p;
  }

  /** The keys of the elements of `s`, in order. */
  function Keys<T, K>(s: seq<T>, key: T -> K): (r: seq<K>)
    ensures |r| == |s|
    ensures forall i :: 0 <= i < |s| ==> r[i] == key(s[i])
  {
    seq(|s|, i requires 0 <= i < |s| => key(s[i]))
  }

  /** Keeps the first element for each key, in order. */
  function DedupBy<T(==,!new), K(==)>(s: seq<T>, key: T -> K): (r: seq<T>)
    ensures Distinct(Keys(r, key))
    ensures forall x :: x in r ==> x in s
    ensures forall x :: x in s ==> key(x) in Keys(r, key)
    decreases |s|
  {
    if |s| == 0 then []
    else
      var p := DedupBy(s[..|s| - 1], key);
      var x := s[|s| - 1];
      assert s == s[..|s| - 1] + [x];
      if key(x) in Keys(p, key) then p
      else
        assert Keys(p + [x], key) == Keys(p, key) + [key(x)];
        p + [x]
  }

  /**
   * The loop with a `Set` of seen keys: an element is pushed when its key
   * has not been seen, and its key is added.
   */
  method DedupByLoop<T(==,!new), K(==)>(s: seq<T>, key: T -> K) returns (r: seq<T>)
    ensures r == DedupBy(s, key)
  {
    var seen: set<K> := {};
    r := [];
    var i := 0;
    while i < |s|
      invariant 0 <= i <= |s|
      invariant r == DedupBy(s[..i], key)
      invariant seen == set k | k in Keys(r, key)
    {
      DedupByStep(s, i, key, r, seen);
      if key(s[i]) !in seen {
        seen := seen + {key(s[i])};
        r := r + [s[i]];
      }
      i := i + 1;
    }
    assert s[..i] == s;
  }

  /** One turn of `DedupByLoop`: the element is kept exactly when its key is not yet seen. */
  lemma DedupByStep<T(!new), K>(s: seq<T>, i: nat, key: T -> K, r: seq<T>, seen: set<K>)
    requires i < |s| && r == DedupBy(s[..i], key) && seen == set k | k in Keys(r, key)
    ensures key(s[i]) in seen ==> DedupBy(s[..i + 1], key) == r
    ensures key(s[i]) !in seen ==> DedupBy(s[..i + 1], key) == r + [s[i]]
    ensures seen + {key(s[i])} == set k | k in Keys(r + [s[i]], key)
  {
    assert s[..i + 1] == s[..i] + [s[i]];
    DedupBySnoc(s[..i], s[i], key);
    KeysSnoc(r, s[i], key);
    SetOfSnoc(Keys(r, key), key(s[i]));
  }

  lemma SetOfSnoc<K>(ks: seq<K>, v: K)
    ensures (set k | k in ks) + {v} == set k | k in ks + [v]
  {
  }

  /**
   * De-duplicating a longer list only appends: what is kept from `a`
   * stays in front, in its order.
   */
  lemma {:induction false} DedupByPrefix<T(!new), K>(a: seq<T>, b: seq<T>, key: T -> K)
    ensures DedupBy(a, key) <= DedupBy(a + b, key)
    decreases |b|
  {
    if |b| == 0 {
      assert a + b == a;
    } else {
      assert (a + b)[..|a + b| - 1] == a + b[..|b| - 1];
      DedupByPrefix(a, b[..|b| - 1], key);
    }
  }

  /** A key that `DedupBy` keeps belongs to some element of the input. */
  lemma KeptKeysOccur<T(!new), K>(s: seq<T>, key: T -> K, v: K)
    ensures v in Keys(DedupBy(s, key), key) ==> exists k :: 0 <= k < |s| && key(s[k]) == v
  {
    var d := DedupBy(s, key);
    if v in Keys(d, key) {
      var m :| 0 <= m < |d| && Keys(d, key)[m] == v;
      assert d[m] in d;
    }
  }

  /** The first element with each key is the one kept. */
  lemma {:induction false} DedupByKeepsFirst<T(!new), K>(s: seq<T>, key: T -> K, j: nat)
    requires j < |s|
    requires forall k :: 0 <= k < j ==> key(s[k]) != key(s[j])
    ensures s[j] in DedupBy(s, key)
    decreases |s|
  {
    var p := s[..|s| - 1];
    if j < |s| - 1 {
      DedupByKeepsFirst(p, key, j);
      assert s == p + [s[|s| - 1]];
      DedupByPrefix(p, [s[|s| - 1]], key);
    } else {
      KeptKeysOccur(p, key, key(s[j]));
      assert s == p + [s[j]];
      DedupBySnoc(p, s[j], key);
    }
  }

  /** Elements of `s` whose key is `v`, in order. */
  function WithKey<T>(s: seq<T>, key: T -> int, v: int): seq<T>
    decreases |s|
  {
    if |s| == 0 then []
    else WithKey(s[..|s| - 1], key, v) + (if key(s[|s| - 1]) == v then [s[|s| - 1]] else [])
  }

  lemma {:induction false} WithKeyConcat<T>(a: seq<T>, b: seq<T>, key: T -> int, v: int)
    ensures WithKey(a + b, key, v) == WithKey(a, key, v) + WithKey(b, key, v)
    decreases |b|
  {
    if |b| == 0 {
      assert a + b == a;
    } else {
      assert (a + b)[..|a + b| - 1] == a + b[..|b| - 1];
      WithKeyConcat(a, b[..|b| - 1], key, v);
    }
  }

  predicate SortedDesc<T>(s: seq<T>, key: T -> int) {
    forall i, j :: 0 <= i < j < |s| ==> key(s[i]) >= key(s[j])
  }

  /** Places `x` after every element whose key is at least `key(x)`. */
  function Insert<T>(x: T, s: seq<T>, key: T -> int): (r: seq<T>)
    ensures |r| == |s| + 1
    decreases |s|
  {
    if |s| == 0 then [x]
    else if key(s[0]) >= key(x) then [s[0]] + Insert(x, s[1..], key)
    else [x] + s
  }

  /**
   * `[...s].sort((a, b) => key(b) - key(a))`: descending by key, elements
   * with equal keys in their original order (the sort is stable).
   */
  function SortDesc<T>(s: seq<T>, key: T -> int): (r: seq<T>)
    ensures |r| == |s|
    decreases |s|
  {
    if |s| == 0 then [] else Insert(s[|s| - 1], SortDesc(s[..|s| - 1], key), key)
  }

  lemma {:induction false} InsertSorted<T>(x: T, s: seq<T>, key: T -> int)
    requires SortedDesc(s, key)
    ensures SortedDesc(Insert(x, s, key), key)
    ensures forall i :: 0 <= i < |s| + 1 ==> Insert(x, s, key)[i] == x || Insert(x, s, key)[i] in s
    decreases |s|
  {
    if |s| > 0 && key(s[0]) >= key(x) {
      InsertSorted(x, s[1..], key);
      var r := Insert(x, s, key);
      assert r == [s[0]] + Insert(x, s[1..], key);
      forall i | 0 <= i < |r| ensures r[i] == x || r[i] in s {
        if i > 0 {
          assert r[i] == Insert(x, s[1..], key)[i - 1];
        }
      }
      forall i, j | 0 <= i < j < |r| ensures key(r[i]) >= key(r[j]) {
        if i == 0 {
          var y := r[j];
          assert y == Insert(x, s[1..], key)[j - 1];
          if y != x {
            assert y in s[1..];
          }
        }
      }
    }
  }

  lemma {:induction false} InsertMultiset<T>(x: T, s: seq<T>, key: T -> int)
    ensures multiset(Insert(x, s, key)) == multiset(s) + multiset{x}
    decreases |s|
  {
    if |s| > 0 && key(s[0]) >= key(x) {
      InsertMultiset(x, s[1..], key);
      assert s == [s[0]] + s[1..];
    }
  }

  /** Filtering keeps keys pairwise distinct. */
  lemma {:induction false} FilterKeepsDistinctKeys<T(!new), K>(s: seq<T>, p: T -> bool, key: T -> K)
    requires Distinct(Keys(s, key))
    ensures Distinct(Keys(Filter(s, p), key))
    decreases |s|
  {
    if |s| > 0 {
      var init := s[..|s| - 1];
      var x := s[|s| - 1];
      assert Distinct(Keys(init, key)) by {
        forall i, j | 0 <= i < j < |init| ensures Keys(init, key)[i] != Keys(init, key)[j] {
          assert Keys(s, key)[i] != Keys(s, key)[j];
        }
      }
      FilterKeepsDistinctKeys(init, p, key);
      FilterMembers(init, p);
      var f := Filter(init, p);
      if p(x) {
        var r := f + [x];
        forall i, j | 0 <= i < j < |r| ensures key(r[i]) != key(r[j]) {
          if j == |f| {
            assert r[i] == f[i] && f[i] in f;
            assert r[i] in init;
            var m :| 0 <= m < |init| && init[m] == r[i];
            assert Keys(s, key)[m] != Keys(s, key)[|s| - 1];
          } else {
            assert Keys(f, key)[i] != Keys(f, key)[j];
          }
        }
      }
    }
  }

  /** `Insert` adds exactly `x` to the elements. */
  lemma {:induction false} InsertMembers<T(!new)>(x: T, s: seq<T>, key: T -> int)
    ensures forall y :: y in Insert(x, s, key) <==> y == x || y in s
    decreases |s|
  {
    if |s| > 0 && key(s[0]) >= key(x) {
      InsertMembers(x, s[1..], key);
      assert s == [s[0]] + s[1..];
    }
  }

  /** Inserting an element whose key is new keeps keys pairwise distinct. */
  lemma {:induction false} InsertKeepsDistinctKeys<T(!new), K>(x: T, s: seq<T>, key: T -> int, k: T -> K)
    requires Distinct(Keys(s, k))
    requires forall y :: y in s ==> k(y) != k(x)
    ensures Distinct(Keys(Insert(x, s, key), k))
    decreases |s|
  {
    if |s| > 0 && key(s[0]) >= key(x) {
      var t := s[1..];
      assert Distinct(Keys(t, k)) by {
        forall i, j | 0 <= i < j < |t| ensures Keys(t, k)[i] != Keys(t, k)[j] {
          assert Keys(s, k)[i + 1] != Keys(s, k)[j + 1];
        }
      }
      InsertKeepsDistinctKeys(x, t, key, k);
      InsertMembers(x, t, key);
      var r := Insert(x, s, key);
      var rt := Insert(x, t, key);
      assert r == [s[0]] + rt;
      forall i, j | 0 <= i < j < |r| ensures k(r[i]) != k(r[j]) {
        if i == 0 {
          assert r[j] == rt[j - 1];
          if r[j] != x {
            assert r[j] in rt;
            assert r[j] in t;
            var m :| 0 <= m < |t| && t[m] == r[j];
            assert Keys(s, k)[0] != Keys(s, k)[m + 1];
          }
        } else {
          assert Keys(rt, k)[i - 1] != Keys(rt, k)[j - 1];
        }
      }
    } else if |s| > 0 {
      var r := Insert(x, s, key);
      assert r == [x] + s;
      forall i, j | 0 <= i < j < |r| ensures k(r[i]) != k(r[j]) {
        if i == 0 {
          assert r[j] == s[j - 1];
        } else {
          assert Keys(s, k)[i - 1] != Keys(s, k)[j - 1];
        }
      }
    }
  }

  /** `SortDesc` keeps the elements and keeps keys pairwise distinct. */
  lemma {:induction false} SortDescKeepsDistinctKeys<T(!new), K>(s: seq<T>, key: T -> int, k: T -> K)
    requires Distinct(Keys(s, k))
    ensures Distinct(Keys(SortDesc(s, key), k))
    ensures forall y :: y in SortDesc(s, key) <==> y in s
    decreases |s|
  {
    if |s| > 0 {
      var init := s[..|s| - 1];
      var x := s[|s| - 1];
      assert Distinct(Keys(init, k)) by {
        forall i, j | 0 <= i < j < |init| ensures Keys(init, k)[i] != Keys(init, k)[j] {
          assert Keys(s, k)[i] != Keys(s, k)[j];
        }
      }
      SortDescKeepsDistinctKeys(init, key, k);
      forall y | y in SortDesc(init, key) ensures k(y) != k(x) {
        assert y in init;
        var m :| 0 <= m < |init| && init[m] == y;
        assert Keys(s, k)[m] != Keys(s, k)[|s| - 1];
      }
      InsertKeepsDistinctKeys(x, SortDesc(init, key), key, k);
      InsertMembers(x, SortDesc(init, key), key);
      assert s == init + [x];
    }
  }

  /** The result of `SortDesc` is ordered by key, descending. */
  lemma {:induction false} SortDescSorted<T>(s: seq<T>, key: T -> int)
    ensures SortedDesc(SortDesc(s, key), key)
    decreases |s|
  {
    if |s| > 0 {
      SortDescSorted(s[..|s| - 1], key);
      InsertSorted(s[|s| - 1], SortDesc(s[..|s| - 1], key), key);
    }
  }

  /** `SortDesc` is a permutation. */
  lemma {:induction false} SortDescPermutation<T>(s: seq<T>, key: T -> int)
    ensures multiset(SortDesc(s, key)) == multiset(s)
    decreases |s|
  {
    if |s| > 0 {
      SortDescPermutation(s[..|s| - 1], key);
      InsertMultiset(s[|s| - 1], SortDesc(s[..|s| - 1], key), key);
      assert s == s[..|s| - 1] + [s[|s| - 1]];
    }
  }

  lemma {:induction false} NoneWithLargerKey<T>(s: seq<T>, key: T -> int, v: int)
    requires SortedDesc(s, key)
    requires |s| > 0 ==> key(s[0]) < v
    ensures WithKey(s, key, v) == []
    decreases |s|
  {
    if |s| > 0 {
      NoneWithLargerKey(s[..|s| - 1], key, v);
    }
  }

  /** The records kept for key value `v` are exactly the input's records with that value. */
  lemma {:induction false} WithKeyMembers<T(!new)>(s: seq<T>, key: T -> int, v: int)
    ensures forall x :: x in WithKey(s, key, v) <==> x in s && key(x) == v
    decreases |s|
  {
    if |s| > 0 {
      var p := s[..|s| - 1];
      WithKeyMembers(p, key, v);
      assert s == p + [s[|s| - 1]];
      assert forall x :: x in s <==> x in p || x == s[|s| - 1];
    }
  }

  lemma WithKeySingle<T>(x: T, key: T -> int, v: int)
    ensures WithKey([x], key, v) == (if key(x) == v then [x] else [])
  {
    assert [x][..0] == [];
  }

  /** Putting the same element in front of two sequences keeps their `WithKey` difference. */
  lemma WithKeyConsStep<T>(a: T, t: seq<T>, u: seq<T>, key: T -> int, v: int, extra: seq<T>)
    requires WithKey(u, key, v) == WithKey(t, key, v) + extra
    ensures WithKey([a] + u, key, v) == WithKey([a] + t, key, v) + extra
  {
    WithKeyConcat([a], u, key, v);
    WithKeyConcat([a], t, key, v);
  }

  lemma {:induction false} InsertStable<T>(x: T, s: seq<T>, key: T -> int, v: int)
    requires SortedDesc(s, key)
    ensures WithKey(Insert(x, s, key), key, v)
         == WithKey(s, key, v) + (if key(x) == v then [x] else [])
    decreases |s|
  {
    WithKeySingle(x, key, v);
    if |s| == 0 {
    } else if key(s[0]) >= key(x) {
      var tail := s[1..];
      InsertStable(x, tail, key, v);
      WithKeyConsStep(s[0], tail, Insert(x, tail, key), key, v, if key(x) == v then [x] else []);
      assert Insert(x, s, key) == [s[0]] + Insert(x, tail, key);
      assert s == [s[0]] + tail;
    } else {
      assert Insert(x, s, key) == [x] + s;
      WithKeyConcat([x], s, key, v);
      if key(x) == v {
        NoneWithLargerKey(s, key, v);
      }
    }
  }

  /**
   * Where `Insert` puts `x`: after the first `j` elements, when those are the
   * ones whose key is at least `key(x)` and the next one has a smaller key.
   */
  lemma {:induction false} InsertAt<T>(x: T, s: seq<T>, key: T -> int, j: nat)
    requires j <= |s|
    requires forall k :: 0 <= k < j ==> key(s[k]) >= key(x)
    requires j < |s| ==> key(s[j]) < key(x)
    ensures Insert(x, s, key) == s[..j] + [x] + s[j..]
    decreases j
  {
    if j > 0 {
      InsertAt(x, s[1..], key, j - 1);
      assert s[1..][..j - 1] == s[1..j];
      assert s[..j] == [s[0]] + s[1..j];
      assert s[1..][j - 1..] == s[j..];
    }
  }

  lemma PlacedAt<T>(t: seq<T>, s: seq<T>, x: T, j: nat)
    requires |t| == |s| + 1 && j < |t|
    requires forall k :: 0 <= k < j ==> t[k] == s[k]
    requires t[j] == x
    requires forall k :: j < k < |t| ==> t[k] == s[k - 1]
    ensures t == s[..j] + [x] + s[j..]
  {
  }

  lemma SortedPrefixAtLeast<T>(s: seq<T>, key: T -> int, x: T, j: nat)
    requires SortedDesc(s, key) && j <= |s|
    requires j > 0 ==> key(s[j - 1]) >= key(x)
    ensures forall k :: 0 <= k < j ==> key(s[k]) >= key(x)
  {
  }

  /** One pass of the insertion sort: moves `a[i]` into the sorted prefix `a[..i]`. */
  method InsertInPlace<T>(a: array<T>, i: nat, key: T -> int)
    requires i < a.Length
    requires SortedDesc(a[..i], key)
    modifies a
    ensures a[..i + 1] == Insert(old(a[i]), old(a[..i]), key)
    ensures a[i + 1..] == old(a[i + 1..])
  {
    ghost var s := a[..i];
    var x := a[i];
    var j := i;
    while j > 0 && key(a[j - 1]) < key(x)
      invariant 0 <= j <= i
      invariant forall k :: 0 <= k < j ==> a[k] == s[k]
      invariant forall k :: j < k <= i ==> a[k] == s[k - 1]
      invariant forall k :: j <= k < i ==> key(s[k]) < key(x)
      invariant forall k :: i < k < a.Length ==> a[k] == old(a[k])
    {
      a[j] := a[j - 1];
      j := j - 1;
    }
    a[j] := x;
    PlacedAt(a[..i + 1], s, x, j);
    SortedPrefixAtLeast(s, key, x, j);
    InsertAt(x, s, key, j);
  }

  /**
   * `a.sort((x, y) => key(y) - key(x))` on the caller's array: a stable
   * insertion sort, which leaves `a` holding `SortDesc` of its old contents.
   */
  method SortDescInPlace<T>(a: array<T>, key: T -> int)
    modifies a
    ensures a[..] == SortDesc(old(a[..]), key)
  {
    ghost var orig := a[..];
    var i := 0;
    while i < a.Length
      invariant 0 <= i <= a.Length
      invariant a[..i] == SortDesc(orig[..i], key)
      invariant a[i..] == orig[i..]
    {
      SortDescSorted(orig[..i], key);
      InsertInPlace(a, i, key);
      assert orig[..i + 1][..i] == orig[..i];
      assert a[i + 1..] == orig[i + 1..];
      i := i + 1;
    }
    assert a[..] == a[..a.Length];
    assert orig[..a.Length] == orig;
  }

  /**
   * Stability: the elements sharing one key keep their original relative
   * order.
   */
  lemma {:induction false} SortDescStable<T>(s: seq<T>, key: T -> int, v: int)
    ensures WithKey(SortDesc(s, key), key, v) == WithKey(s, key, v)
    decreases |s|
  {
    if |s| > 0 {
      SortDescStable(s[..|s| - 1], key, v);
      SortDescSorted(s[..|s| - 1], key);
      InsertStable(s[|s| - 1], SortDesc(s[..|s| - 1], key), key, v);
    }
  }

  lemma {:induction false} NoneWithKey<T>(s: seq<T>, key: T -> int, v: int)
    requires forall i :: 0 <= i < |s| ==> key(s[i]) != v
    ensures WithKey(s, key, v) == []
    decreases |s|
  {
    if |s| > 0 {
      NoneWithKey(s[..|s| - 1], key, v);
    }
  }

  /** When every element has key value `v`, selecting that value keeps them all. */
  lemma {:induction false} AllWithKey<T>(s: seq<T>, key: T -> int, v: int)
    requires forall i :: 0 <= i < |s| ==> key(s[i]) == v
    ensures WithKey(s, key, v) == s
    decreases |s|
  {
    if |s| > 0 {
      AllWithKey(s[..|s| - 1], key, v);
      assert s[..|s| - 1] + [s[|s| - 1]] == s;
    }
  }

  lemma {:induction false} SortedSplits01<T>(o: seq<T>, key: T -> int)
    requires SortedDesc(o, key)
    requires forall i :: 0 <= i < |o| ==> key(o[i]) == 0 || key(o[i]) == 1
    ensures o == WithKey(o, key, 1) + WithKey(o, key, 0)
    decreases |o|
  {
    if |o| > 0 {
      var p := o[..|o| - 1];
      var last := o[|o| - 1];
      SortedSplits01(p, key);
      if key(last) == 1 {
        NoneWithKey(p, key, 0);
      }
      assert o == p + [last];
    }
  }

  /**
   * With keys 1 and 0 only, the stable descending sort is the partition
   * that puts every key-1 element first, each part in original order.
   */
  lemma SortDescPartition01<T>(s: seq<T>, key: T -> int)
    requires forall i :: 0 <= i < |s| ==> key(s[i]) == 0 || key(s[i]) == 1
    ensures SortDesc(s, key) == WithKey(s, key, 1) + WithKey(s, key, 0)
  {
    var o := SortDesc(s, key);
    SortDescSorted(s, key);
    SortDescPermutation(s, key);
    forall i | 0 <= i < |o| ensures key(o[i]) == 0 || key(o[i]) == 1 {
      assert o[i] in multiset(o);
      assert o[i] in s;
    }
    SortedSplits01(o, key);
    SortDescStable(s, key, 1);
    SortDescStable(s, key, 0);
  }
}
