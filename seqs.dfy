/**
 * Generic sequence vocabulary the queries are written in: duplicate-free
 * sequences (SELECT DISTINCT, GROUP BY keys in order of first appearance,
 * UNION) and ordering (ORDER BY, Python's sorted()).
 */
module Seqs {

  predicate NoDup<T(==)>(s: seq<T>)
  {
    forall i, j :: 0 <= i < j < |s| ==> s[i] != s[j]
  }

  /** The distinct elements of `s`, each at the place it first appears. */
  function Distinct<T(==)>(s: seq<T>): (r: seq<T>)
    ensures NoDup(r)
    ensures forall i :: 0 <= i < |r| ==> r[i] in s
    ensures forall i :: 0 <= i < |s| ==> s[i] in r
    ensures |r| <= |s|
  {
    if s == [] then []
    else
      var r := Distinct(s[..|s| - 1]);
      assert s == s[..|s| - 1] + [s[|s| - 1]];
      if s[|s| - 1] in r then r else r + [s[|s| - 1]]
  }

  lemma {:induction false} DistinctOfNoDup<T>(s: seq<T>)
    requires NoDup(s)
    ensures Distinct(s) == s
  {
    if s != [] {
      var p := s[..|s| - 1];
      assert NoDup(p);
      DistinctOfNoDup(p);
      assert s[|s| - 1] !in p;
      assert s == p + [s[|s| - 1]];
    }
  }

  /** `le` is a total preorder: the shape of every ORDER BY here. */
  ghost predicate TotalPreorder<T(!new)>(le: (T, T) -> bool)
  {
    && (forall a, b :: le(a, b) || le(b, a))
    && (forall a, b, c :: le(a, b) && le(b, c) ==> le(a, c))
  }

  predicate SortedBy<T>(s: seq<T>, le: (T, T) -> bool)
  {
    forall i, j :: 0 <= i < j < |s| ==> le(s[i], s[j])
  }

  function InsertBy<T>(x: T, s: seq<T>, le: (T, T) -> bool): (r: seq<T>)
    ensures multiset(r) == multiset(s) + multiset{x}
    ensures |r| == |s| + 1
  {
    if s == [] then [x]
    else if le(x, s[0]) then [x] + s
    else
      assert s == [s[0]] + s[1..];
      [s[0]] + InsertBy(x, s[1..], le)
  }

  /** Insertion sort; stable, like Python's sorted(). */
  function SortBy<T>(s: seq<T>, le: (T, T) -> bool): (r: seq<T>)
    ensures multiset(r) == multiset(s)
    ensures |r| == |s|
  {
    if s == [] then []
    else
      assert s == [s[0]] + s[1..];
      InsertBy(s[0], SortBy(s[1..], le), le)
  }

  lemma {:induction false} InsertBySorted<T(!new)>(x: T, s: seq<T>, le: (T, T) -> bool)
    requires TotalPreorder(le)
    requires SortedBy(s, le)
    ensures SortedBy(InsertBy(x, s, le), le)
  {
    if s != [] && !le(x, s[0]) {
      assert le(s[0], x);
      var t := s[1..];
      assert SortedBy(t, le);
      InsertBySorted(x, t, le);
      var u := InsertBy(x, t, le);
      assert multiset(u) == multiset(t) + multiset{x};
      forall k | 0 <= k < |u| ensures le(s[0], u[k]) {
        assert u[k] in multiset(u);
        if u[k] == x {
        } else {
          assert u[k] in multiset(t);
          assert u[k] in t;
        }
      }
    } else if s != [] {
      forall i, j | 0 <= i < j < |[x] + s| ensures le(([x] + s)[i], ([x] + s)[j]) {
        if i > 0 {
        } else {
          assert le(x, s[0]);
          if j > 1 { assert le(s[0], s[j - 1]); }
        }
      }
    }
  }

  lemma {:induction false} SortBySorted<T(!new)>(s: seq<T>, le: (T, T) -> bool)
    requires TotalPreorder(le)
    ensures SortedBy(SortBy(s, le), le)
  {
    if s != [] {
      SortBySorted(s[1..], le);
      InsertBySorted(s[0], SortBy(s[1..], le), le);
    }
  }

  /** The second of four concatenated parts is the slice between the lengths around it. */
  lemma MiddleOfConcat<T>(a: seq<T>, b: seq<T>, c: seq<T>, d: seq<T>)
    ensures (a + b + c + d)[|a|..|a| + |b|] == b
  {
    var s := a + b + c + d;
    assert forall i :: 0 <= i < |b| ==> s[|a| + i] == b[i];
  }

  /** Every element of a permutation of `b` is some element of `b`. */
  lemma PermutationMembers<T>(a: seq<T>, b: seq<T>)
    requires multiset(a) == multiset(b)
    ensures forall i :: 0 <= i < |a| ==> a[i] in b
  {
    forall i | 0 <= i < |a| ensures a[i] in b {
      assert a[i] in multiset(b);
    }
  }

  lemma MultisetNoDup<T>(s: seq<T>, t: seq<T>)
    requires multiset(s) == multiset(t)
    requires NoDup(s)
    ensures NoDup(t)
  {
    forall i, j | 0 <= i < j < |t| ensures t[i] != t[j] {
      if t[i] == t[j] {
        var x := t[i];
        assert t == t[..i] + [x] + t[i + 1..j] + [x] + t[j + 1..];
        assert multiset(t)[x] >= 2;
        CountAtMostOne(s, x);
      }
    }
  }

  lemma {:induction false} CountAtMostOne<T>(s: seq<T>, x: T)
    requires NoDup(s)
    ensures multiset(s)[x] <= 1
  {
    if s != [] {
      var p := s[..|s| - 1];
      assert s == p + [s[|s| - 1]];
      assert NoDup(p);
      CountAtMostOne(p, x);
      if s[|s| - 1] == x {
        assert x !in p;
      }
    }
  }

  // ---------------------------------------------------------------------
  // WHERE, SUM(CASE ...), GROUP BY: filters, counts and sums over rows.

  function Map<T, U>(s: seq<T>, f: T -> U): (r: seq<U>)
    ensures |r| == |s|
    ensures forall i :: 0 <= i < |s| ==> r[i] == f(s[i])
  {
    if s == [] then [] else Map(s[..|s| - 1], f) + [f(s[|s| - 1])]
  }

  /** The rows that satisfy `p`, in their order (a WHERE clause). */
  function Filter<T>(s: seq<T>, p: T -> bool): (r: seq<T>)
    ensures |r| <= |s|
    ensures forall x :: x in r ==> x in s && p(x)
    ensures forall x :: x in s && p(x) ==> x in r
  {
    if s == [] then []
    else
      var r := Filter(s[..|s| - 1], p);
      assert s == s[..|s| - 1] + [s[|s| - 1]];
      if p(s[|s| - 1]) then r + [s[|s| - 1]] else r
  }

  /** SUM(CASE WHEN p THEN 1 ELSE 0 END) over the rows `s`. */
  function Count<T>(s: seq<T>, p: T -> bool): (n: nat)
    ensures n <= |s|
  {
    if s == [] then 0 else Count(s[..|s| - 1], p) + (if p(s[|s| - 1]) then 1 else 0)
  }

  /** SUM(w) over the rows `s`, for a column that is never NULL. */
  function SumOf<T>(s: seq<T>, w: T -> nat): nat
  {
    if s == [] then 0 else SumOf(s[..|s| - 1], w) + w(s[|s| - 1])
  }

  lemma CountSnoc<T>(s: seq<T>, x: T, p: T -> bool)
    ensures Count(s + [x], p) == Count(s, p) + (if p(x) then 1 else 0)
  {
    assert (s + [x])[..|s|] == s;
  }

  lemma {:induction false} CountAppend<T>(a: seq<T>, b: seq<T>, p: T -> bool)
    ensures Count(a + b, p) == Count(a, p) + Count(b, p)
    decreases |b|
  {
    if b != [] {
      var b' := b[..|b| - 1];
      assert (a + b)[..|a + b| - 1] == a + b';
      CountAppend(a, b', p);
    } else {
      assert a + b == a;
    }
  }

  lemma {:induction false} SumOfAppend<T>(a: seq<T>, b: seq<T>, w: T -> nat)
    ensures SumOf(a + b, w) == SumOf(a, w) + SumOf(b, w)
    decreases |b|
  {
    if b != [] {
      var b' := b[..|b| - 1];
      assert (a + b)[..|a + b| - 1] == a + b';
      SumOfAppend(a, b', w);
    } else {
      assert a + b == a;
    }
  }

  /** Reordering rows (ORDER BY) does not change a sum over them. */
  lemma {:induction false} SumOfPermutation<T>(a: seq<T>, b: seq<T>, w: T -> nat)
    requires multiset(a) == multiset(b)
    ensures SumOf(a, w) == SumOf(b, w)
    decreases |a|
  {
    if a == [] {
      assert |b| == |multiset(b)|;
    } else {
      var p, x := a[..|a| - 1], a[|a| - 1];
      assert a == p + [x];
      assert x in multiset(b);
      var k :| 0 <= k < |b| && b[k] == x;
      var rest := b[..k] + b[k + 1..];
      assert b == b[..k] + [x] + b[k + 1..];
      SumOfMiddle(b[..k], x, b[k + 1..], w);
      MultisetRemove(a, b, k);
      SumOfPermutation(p, rest, w);
    }
  }

  /** Taking the last row of `a` and the same row out of its permutation `b` leaves permutations. */
  lemma MultisetRemove<T>(a: seq<T>, b: seq<T>, k: nat)
    requires multiset(a) == multiset(b) && a != [] && k < |b| && b[k] == a[|a| - 1]
    ensures multiset(b[..k] + b[k + 1..]) == multiset(a[..|a| - 1])
  {
    var p, x, rest := a[..|a| - 1], a[|a| - 1], b[..k] + b[k + 1..];
    assert a == p + [x];
    assert b == b[..k] + [x] + b[k + 1..];
    assert multiset(b) == multiset(rest) + multiset{x};
    assert multiset(a) == multiset(p) + multiset{x};
    forall y ensures multiset(rest)[y] == multiset(p)[y] {
      assert multiset(b)[y] == multiset(rest)[y] + multiset{x}[y];
      assert multiset(a)[y] == multiset(p)[y] + multiset{x}[y];
    }
  }

  lemma SumOfMiddle<T>(l: seq<T>, x: T, r: seq<T>, w: T -> nat)
    ensures SumOf(l + [x] + r, w) == SumOf(l + r, w) + w(x)
  {
    SumOfSingle(x, w);
    SumOfAppend(l, [x], w);
    SumOfAppend(l + [x], r, w);
    SumOfAppend(l, r, w);
  }

  lemma SumOfSingle<T>(x: T, w: T -> nat)
    ensures SumOf([x], w) == w(x)
  {
    assert [x][..0] == [];
  }

  /** Two conditions of which every row meets exactly one split the rows between them. */
  lemma {:induction false} CountSplit<T>(s: seq<T>, p: T -> bool, q: T -> bool)
    requires forall i :: 0 <= i < |s| ==> (p(s[i]) <==> !q(s[i]))
    ensures Count(s, p) + Count(s, q) == |s|
  {
    if s != [] {
      CountSplit(s[..|s| - 1], p, q);
    }
  }

  /** Counting the images of rows is counting the rows by the composed condition. */
  lemma {:induction false} CountMap<T, U>(s: seq<T>, f: T -> U, p: U -> bool, q: T -> bool)
    requires forall i :: 0 <= i < |s| ==> (p(f(s[i])) <==> q(s[i]))
    ensures Count(Map(s, f), p) == Count(s, q)
  {
    if s != [] {
      var init := s[..|s| - 1];
      assert Map(s, f)[..|s| - 1] == Map(init, f);
      CountMap(init, f, p, q);
    }
  }

  /** Mapping twice is mapping once by the composition. */
  lemma MapCompose<T, U, V>(s: seq<T>, f: T -> U, g: U -> V, h: T -> V)
    requires forall i :: 0 <= i < |s| ==> g(f(s[i])) == h(s[i])
    ensures Map(Map(s, f), g) == Map(s, h)
  {
  }

  /** A condition implied by another is met by at least as many rows. */
  lemma {:induction false} CountImplies<T>(s: seq<T>, p: T -> bool, q: T -> bool)
    requires forall i :: 0 <= i < |s| ==> p(s[i]) ==> q(s[i])
    ensures Count(s, p) <= Count(s, q)
  {
    if s != [] {
      CountImplies(s[..|s| - 1], p, q);
    }
  }

  lemma {:induction false} CountAll<T>(s: seq<T>, p: T -> bool)
    requires forall i :: 0 <= i < |s| ==> p(s[i])
    ensures Count(s, p) == |s|
  {
    if s != [] {
      CountAll(s[..|s| - 1], p);
    }
  }

  lemma {:induction false} CountNone<T>(s: seq<T>, p: T -> bool)
    requires forall i :: 0 <= i < |s| ==> !p(s[i])
    ensures Count(s, p) == 0
  {
    if s != [] {
      CountNone(s[..|s| - 1], p);
    }
  }

  lemma {:induction false} CountPositive<T>(s: seq<T>, p: T -> bool, i: nat)
    requires i < |s| && p(s[i])
    ensures Count(s, p) > 0
  {
    if i < |s| - 1 {
      CountPositive(s[..|s| - 1], p, i);
    }
  }

  lemma {:induction false} FilterLength<T>(s: seq<T>, p: T -> bool)
    ensures |Filter(s, p)| == Count(s, p)
  {
    if s != [] {
      FilterLength(s[..|s| - 1], p);
    }
  }

  /** The rows whose grouping key is `k`: one group of a GROUP BY. */
  function WithKey<T, K(==)>(s: seq<T>, key: T -> K, k: K): (r: seq<T>)
    ensures |r| <= |s|
    ensures forall x :: x in r ==> x in s && key(x) == k
    ensures forall x :: x in s && key(x) == k ==> x in r
  {
    if s == [] then []
    else
      var r := WithKey(s[..|s| - 1], key, k);
      assert s == s[..|s| - 1] + [s[|s| - 1]];
      if key(s[|s| - 1]) == k then r + [s[|s| - 1]] else r
  }

  /** One group of the rows that pass a WHERE clause is the rows passing both tests. */
  lemma {:induction false} WithKeyOfFilter<T, K>(s: seq<T>, p: T -> bool, key: T -> K, k: K, q: T -> bool)
    requires forall i :: 0 <= i < |s| ==> (q(s[i]) <==> p(s[i]) && key(s[i]) == k)
    ensures WithKey(Filter(s, p), key, k) == Filter(s, q)
  {
    if s != [] {
      var init, x := s[..|s| - 1], s[|s| - 1];
      WithKeyOfFilter(init, p, key, k, q);
      var f := Filter(init, p);
      if p(x) {
        assert (f + [x])[..|f + [x]| - 1] == f;
      }
    }
  }

  /** The distinct grouping keys of `s`, in order of first appearance. */
  function KeysOf<T, K(==)>(s: seq<T>, key: T -> K): (r: seq<K>)
    ensures NoDup(r)
    ensures forall j :: 0 <= j < |r| ==> exists i :: 0 <= i < |s| && key(s[i]) == r[j]
    ensures forall i :: 0 <= i < |s| ==> key(s[i]) in r
  {
    var m := Map(s, key);
    var r := Distinct(m);
    assert forall j :: 0 <= j < |r| ==> exists i :: 0 <= i < |s| && key(s[i]) == r[j] by {
      forall j | 0 <= j < |r| ensures exists i :: 0 <= i < |s| && key(s[i]) == r[j] {
        var i :| 0 <= i < |m| && m[i] == r[j];
        assert key(s[i]) == r[j];
      }
    }
    assert forall i :: 0 <= i < |s| ==> key(s[i]) in r by {
      forall i | 0 <= i < |s| ensures key(s[i]) in r {
        assert m[i] == key(s[i]);
      }
    }
    r
  }

  /** Sum over the keys `ks` of the group sums: what adding up every group's SUM(w) gives. */
  function GroupTotal<T, K(==)>(ks: seq<K>, s: seq<T>, key: T -> K, w: T -> nat): nat
  {
    if ks == [] then 0 else SumOf(WithKey(s, key, ks[0]), w) + GroupTotal(ks[1..], s, key, w)
  }

  lemma {:induction false} GroupTotalSnoc<T, K>(ks: seq<K>, s: seq<T>, x: T, key: T -> K, w: T -> nat)
    requires NoDup(ks)
    ensures GroupTotal(ks, s + [x], key, w)
         == GroupTotal(ks, s, key, w) + (if key(x) in ks then w(x) else 0)
  {
    if ks != [] {
      assert (s + [x])[..|s + [x]| - 1] == s;
      GroupTotalSnoc(ks[1..], s, x, key, w);
      assert key(x) in ks <==> key(x) == ks[0] || key(x) in ks[1..] by {
        assert ks == [ks[0]] + ks[1..];
      }
      assert ks[0] !in ks[1..];
    }
  }

  /**
   * Adding up the sums of all groups gives the sum over all rows: the
   * groups of a GROUP BY partition its input.
   */
  lemma {:induction false} GroupTotalAll<T, K>(ks: seq<K>, s: seq<T>, key: T -> K, w: T -> nat)
    requires NoDup(ks)
    requires forall i :: 0 <= i < |s| ==> key(s[i]) in ks
    ensures GroupTotal(ks, s, key, w) == SumOf(s, w)
    decreases |s|
  {
    if s == [] {
      GroupTotalEmpty(ks, key, w);
    } else {
      var p, x := s[..|s| - 1], s[|s| - 1];
      assert s == p + [x];
      GroupTotalAll(ks, p, key, w);
      GroupTotalSnoc(ks, p, x, key, w);
    }
  }

  lemma {:induction false} GroupTotalEmpty<T, K>(ks: seq<K>, key: T -> K, w: T -> nat)
    ensures GroupTotal(ks, [], key, w) == 0
  {
    if ks != [] {
      GroupTotalEmpty(ks[1..], key, w);
    }
  }

  function One<T>(x: T): nat
  {
    1
  }

  lemma {:induction false} SumOfOne<T>(s: seq<T>)
    ensures SumOf(s, One) == |s|
  {
    if s != [] {
      SumOfOne(s[..|s| - 1]);
    }
  }

  /**
   * Rows meeting `a` are split between `p` and `q`, and no other row meets
   * either: the counts of `p` and `q` add up to that of `a`.
   */
  lemma {:induction false} CountPartition<T>(s: seq<T>, a: T -> bool, p: T -> bool, q: T -> bool)
    requires forall i :: 0 <= i < |s| ==> ((p(s[i]) || q(s[i])) <==> a(s[i]))
    requires forall i :: 0 <= i < |s| ==> !(p(s[i]) && q(s[i]))
    ensures Count(s, p) + Count(s, q) == Count(s, a)
  {
    if s != [] {
      CountPartition(s[..|s| - 1], a, p, q);
    }
  }

  // ---------------------------------------------------------------------
  // Groups of a GROUP BY, and sums over their rows.

  /** Every key of KeysOf names a group that is not empty. */
  lemma GroupNonEmpty<T, K>(s: seq<T>, key: T -> K, ks: seq<K>, j: nat)
    requires ks == KeysOf(s, key) && j < |ks|
    ensures WithKey(s, key, ks[j]) != []
    ensures WithKey(s, key, ks[j])[0] in s && key(WithKey(s, key, ks[j])[0]) == ks[j]
  {
    var i :| 0 <= i < |s| && key(s[i]) == ks[j];
    var g := WithKey(s, key, ks[j]);
    assert s[i] in g;
    assert g[0] in g;
  }

  lemma {:induction false} WithKeyAppend<T, K>(a: seq<T>, b: seq<T>, key: T -> K, k: K)
    ensures WithKey(a + b, key, k) == WithKey(a, key, k) + WithKey(b, key, k)
    decreases |b|
  {
    if b == [] {
      assert a + b == a;
    } else {
      var b' := b[..|b| - 1];
      assert (a + b)[..|a + b| - 1] == a + b';
      WithKeyAppend(a, b', key, k);
    }
  }

  lemma {:induction false} WithKeyNone<T, K>(s: seq<T>, key: T -> K, k: K)
    requires forall i :: 0 <= i < |s| ==> key(s[i]) != k
    ensures WithKey(s, key, k) == []
  {
    if s != [] {
      WithKeyNone(s[..|s| - 1], key, k);
    }
  }

  lemma {:induction false} WithKeyAll<T, K>(s: seq<T>, key: T -> K, k: K)
    requires forall i :: 0 <= i < |s| ==> key(s[i]) == k
    ensures WithKey(s, key, k) == s
  {
    if s != [] {
      WithKeyAll(s[..|s| - 1], key, k);
      assert s == s[..|s| - 1] + [s[|s| - 1]];
    }
  }

  /** A group of duplicate-free rows is duplicate-free. */
  lemma {:induction false} WithKeyNoDup<T, K>(s: seq<T>, key: T -> K, k: K)
    requires NoDup(s)
    ensures NoDup(WithKey(s, key, k))
  {
    if s != [] {
      var p, x := s[..|s| - 1], s[|s| - 1];
      assert NoDup(p);
      WithKeyNoDup(p, key, k);
      assert x !in p;
    }
  }

  lemma {:induction false} FilterNoDup<T>(s: seq<T>, p: T -> bool)
    requires NoDup(s)
    ensures NoDup(Filter(s, p))
  {
    if s != [] {
      var q, x := s[..|s| - 1], s[|s| - 1];
      assert NoDup(q);
      FilterNoDup(q, p);
      assert x !in q;
    }
  }

  lemma SumOfPrepend<T>(x: T, s: seq<T>, w: T -> nat)
    ensures SumOf([x] + s, w) == w(x) + SumOf(s, w)
  {
    SumOfAppend([x], s, w);
    SumOfSingle(x, w);
  }

  /**
   * Rows `u`, one per key of `ks`, each carrying its group's SUM(v) as
   * w: adding up w over `u` is adding up the groups.
   */
  lemma {:induction false} SumOfGroups<T, K, U>(ks: seq<K>, s: seq<T>, key: T -> K, v: T -> nat, u: seq<U>, w: U -> nat)
    requires |u| == |ks|
    requires forall j :: 0 <= j < |ks| ==> w(u[j]) == SumOf(WithKey(s, key, ks[j]), v)
    ensures SumOf(u, w) == GroupTotal(ks, s, key, v)
  {
    if ks != [] {
      SumOfGroups(ks[1..], s, key, v, u[1..], w);
      assert u == [u[0]] + u[1..];
      SumOfPrepend(u[0], u[1..], w);
    }
  }

  /**
   * Rows `u`, one per distinct key of `s`, each carrying its group's SUM(v)
   * as w: adding up w over `u` is adding up v over `s`.
   */
  lemma SumByGroups<T, K, U>(s: seq<T>, key: T -> K, v: T -> nat, u: seq<U>, w: U -> nat)
    requires |u| == |KeysOf(s, key)|
    requires forall j :: 0 <= j < |u| ==> w(u[j]) == SumOf(WithKey(s, key, KeysOf(s, key)[j]), v)
    ensures SumOf(u, w) == SumOf(s, v)
  {
    SumOfGroups(KeysOf(s, key), s, key, v, u, w);
    GroupTotalAll(KeysOf(s, key), s, key, v);
  }

  /** Two weights that agree on every row have the same sum. */
  lemma {:induction false} SumOfCongruent<T>(s: seq<T>, v: T -> nat, w: T -> nat)
    requires forall i :: 0 <= i < |s| ==> v(s[i]) == w(s[i])
    ensures SumOf(s, v) == SumOf(s, w)
  {
    if s != [] {
      SumOfCongruent(s[..|s| - 1], v, w);
    }
  }

  lemma {:induction false} SumOfZero<T>(s: seq<T>, w: T -> nat)
    requires forall i :: 0 <= i < |s| ==> w(s[i]) == 0
    ensures SumOf(s, w) == 0
  {
    if s != [] {
      SumOfZero(s[..|s| - 1], w);
    }
  }

  /**
   * The rows that do not meet `p`, counted as COUNT(*) minus
   * SUM(CASE WHEN p THEN 1 ELSE 0 END), are the sum of a 0/1 weight.
   */
  lemma {:induction false} CountComplement<T>(s: seq<T>, p: T -> bool, w: T -> nat)
    requires forall x :: w(x) == if p(x) then 0 else 1
    ensures SumOf(s, w) + Count(s, p) == |s|
  {
    if s != [] {
      CountComplement(s[..|s| - 1], p, w);
    }
  }

  /** A property every row's key has holds of every distinct key. */
  lemma KeysOfAll<T, K>(s: seq<T>, key: T -> K, p: K -> bool)
    requires forall i :: 0 <= i < |s| ==> p(key(s[i]))
    ensures forall j :: 0 <= j < |KeysOf(s, key)| ==> p(KeysOf(s, key)[j])
  {
    var ks := KeysOf(s, key);
    forall j | 0 <= j < |ks| ensures p(ks[j]) {
      var i :| 0 <= i < |s| && key(s[i]) == ks[j];
    }
  }
}
