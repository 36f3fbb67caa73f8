/** Sequence helpers that stand for the Python built-ins the analytics code
    leans on: sum over a generator, list comprehensions with a filter,
    statistics.mean, the stable sorted(), dict grouping and slicing. */
module Seqs {

  // ---------------------------------------------------------------------
  // sum and mean
  // ---------------------------------------------------------------------

  /** sum(f(x) for x in s) */
  function SumOf<T>(s: seq<T>, f: T -> real): real
  {
    if s == [] then 0.0 else f(s[0]) + SumOf(s[1..], f)
  }

  lemma {:induction false} SumOfAppend<T>(a: seq<T>, b: seq<T>, f: T -> real)
    ensures SumOf(a + b, f) == SumOf(a, f) + SumOf(b, f)
  {
    if a == [] {
      assert a + b == b;
    } else {
      assert (a + b)[0] == a[0];
      assert (a + b)[1..] == a[1..] + b;
      SumOfAppend(a[1..], b, f);
    }
  }

  lemma {:induction false} SumAtLeast<T>(s: seq<T>, f: T -> real, lo: real)
    requires forall x :: x in s ==> f(x) >= lo
    ensures SumOf(s, f) >= |s| as real * lo
  {
    if s != [] {
      var rest := s[1..];
      assert s[0] in s;
      forall x | x in rest ensures f(x) >= lo {
        var k :| 0 <= k < |rest| && rest[k] == x;
        assert s[k + 1] == x;
      }
      SumAtLeast(rest, f, lo);
      var n := |rest| as real;
      calc {
        SumOf(s, f);
      ==  f(s[0]) + SumOf(rest, f);
      >=  lo + n * lo;
      ==  (n + 1.0) * lo;
      ==  |s| as real * lo;
      }
    }
  }

  lemma {:induction false} SumAtMost<T>(s: seq<T>, f: T -> real, hi: real)
    requires forall x :: x in s ==> f(x) <= hi
    ensures SumOf(s, f) <= |s| as real * hi
  {
    if s != [] {
      var rest := s[1..];
      assert s[0] in s;
      forall x | x in rest ensures f(x) <= hi {
        var k :| 0 <= k < |rest| && rest[k] == x;
        assert s[k + 1] == x;
      }
      SumAtMost(rest, f, hi);
      var n := |rest| as real;
      calc {
        SumOf(s, f);
      ==  f(s[0]) + SumOf(rest, f);
      <=  hi + n * hi;
      ==  (n + 1.0) * hi;
      ==  |s| as real * hi;
      }
    }
  }

  /** statistics.mean over a non-empty sequence */
  function Mean<T>(s: seq<T>, f: T -> real): real
    requires |s| > 0
  {
    SumOf(s, f) / (|s| as real)
  }

  lemma MeanAtLeast<T>(s: seq<T>, f: T -> real, lo: real)
    requires |s| > 0
    requires forall x :: x in s ==> f(x) >= lo
    ensures Mean(s, f) >= lo
  {
    SumAtLeast(s, f, lo);
    var n := |s| as real;
    assert Mean(s, f) * n == SumOf(s, f);
  }

  lemma MeanAtMost<T>(s: seq<T>, f: T -> real, hi: real)
    requires |s| > 0
    requires forall x :: x in s ==> f(x) <= hi
    ensures Mean(s, f) <= hi
  {
    SumAtMost(s, f, hi);
    var n := |s| as real;
    assert Mean(s, f) * n == SumOf(s, f);
  }

  // ---------------------------------------------------------------------
  // filters
  // ---------------------------------------------------------------------

  /** [x for x in s if p(x)] */
  function Filter<T>(s: seq<T>, p: T -> bool): (r: seq<T>)
    ensures |r| <= |s|
    ensures forall x :: x in r ==> x in s && p(x)
  {
    if s == [] then [] else (if p(s[0]) then [s[0]] else []) + Filter(s[1..], p)
  }

  /** Nothing passes a filter that no element satisfies. */
  lemma {:induction false} FilterNone<T>(s: seq<T>, p: T -> bool)
    requires forall x :: x in s ==> !p(x)
    ensures Filter(s, p) == []
  {
    if s != [] {
      assert s[0] in s;
      assert forall x :: x in s[1..] ==> x in s;
      FilterNone(s[1..], p);
    }
  }

  /** [f(x) for x in s] */
  function MapSeq<A, B>(s: seq<A>, f: A -> B): (r: seq<B>)
    ensures |r| == |s|
    ensures forall i :: 0 <= i < |s| ==> r[i] == f(s[i])
  {
    if s == [] then [] else [f(s[0])] + MapSeq(s[1..], f)
  }

  lemma MapSeqSnoc<A, B>(s: seq<A>, x: A, f: A -> B)
    ensures MapSeq(s + [x], f) == MapSeq(s, f) + [f(x)]
  {
    MapSeqAppend(s, [x], f);
  }

  /** for x in s: out.append(f(x)) */
  method AppendMapped<A, B>(lines: seq<B>, s: seq<A>, f: A -> B) returns (out: seq<B>)
    ensures out == lines + MapSeq(s, f)
  {
    out := lines;
    for i := 0 to |s|
      invariant out == lines + MapSeq(s[..i], f)
    {
      assert s[..i + 1] == s[..i] + [s[i]];
      MapSeqSnoc(s[..i], s[i], f);
      out := out + [f(s[i])];
    }
    assert s[..|s|] == s;
  }

  lemma MapSeqAppend<A, B>(a: seq<A>, b: seq<A>, f: A -> B)
    ensures MapSeq(a + b, f) == MapSeq(a, f) + MapSeq(b, f)
  {
    assert MapSeq(a + b, f) == MapSeq(a, f) + MapSeq(b, f);
  }

  /** sum(1 for x in s if p(x)) */
  function Count<T>(s: seq<T>, p: T -> bool): nat
  {
    |Filter(s, p)|
  }

  lemma {:induction false} FilterAppend<T>(a: seq<T>, b: seq<T>, p: T -> bool)
    ensures Filter(a + b, p) == Filter(a, p) + Filter(b, p)
  {
    if a == [] {
      assert a + b == b;
    } else {
      assert (a + b)[0] == a[0];
      assert (a + b)[1..] == a[1..] + b;
      FilterAppend(a[1..], b, p);
    }
  }

  /** The filter keeps every occurrence of a satisfying element and no other. */
  lemma {:induction false} FilterMultiplicity<T>(s: seq<T>, p: T -> bool, x: T)
    ensures multiset(Filter(s, p))[x] == if p(x) then multiset(s)[x] else 0
  {
    if s != [] {
      assert s == [s[0]] + s[1..];
      assert multiset(s) == multiset{s[0]} + multiset(s[1..]);
      FilterMultiplicity(s[1..], p, x);
    }
  }

  /** The elements whose key is k, in their order in s (one dict bucket). */
  function WithKey<T, K(==)>(s: seq<T>, key: T -> K, k: K): (r: seq<T>)
    ensures |r| <= |s|
    ensures forall x :: x in r ==> x in s && key(x) == k
  {
    if s == [] then [] else (if key(s[0]) == k then [s[0]] else []) + WithKey(s[1..], key, k)
  }

  lemma {:induction false} WithKeyAppend<T, K>(a: seq<T>, b: seq<T>, key: T -> K, k: K)
    ensures WithKey(a + b, key, k) == WithKey(a, key, k) + WithKey(b, key, k)
  {
    if a == [] {
      assert a + b == b;
    } else {
      assert (a + b)[0] == a[0];
      assert (a + b)[1..] == a[1..] + b;
      WithKeyAppend(a[1..], b, key, k);
    }
  }

  lemma WithKeyCons<T, K>(x: T, s: seq<T>, key: T -> K, k: K)
    ensures WithKey([x] + s, key, k) == (if key(x) == k then [x] else []) + WithKey(s, key, k)
  {
    assert ([x] + s)[0] == x;
    assert ([x] + s)[1..] == s;
  }

  lemma {:induction false} WithKeyAbsent<T, K>(s: seq<T>, key: T -> K, k: K)
    requires forall x :: x in s ==> key(x) != k
    ensures WithKey(s, key, k) == []
  {
    if s != [] {
      assert s[0] in s;
      assert forall x :: x in s[1..] ==> x in s;
      WithKeyAbsent(s[1..], key, k);
    }
  }

  /** Appending one element extends its own bucket only. */
  lemma WithKeySnoc<T, K>(s: seq<T>, x: T, key: T -> K, k: K)
    ensures WithKey(s + [x], key, k) == WithKey(s, key, k) + (if key(x) == k then [x] else [])
  {
    WithKeyAppend(s, [x], key, k);
    assert WithKey([x], key, k) == (if key(x) == k then [x] else []) + WithKey([x][1..], key, k);
  }

  /** Every element lands in the bucket of its own key. */
  lemma {:induction false} WithKeyMember<T, K>(s: seq<T>, key: T -> K, x: T)
    requires x in s
    ensures x in WithKey(s, key, key(x))
  {
    if s[0] != x {
      assert x in s[1..];
      WithKeyMember(s[1..], key, x);
    }
  }

  /** A bucket holds every copy of the elements with its key and nothing
      else. */
  lemma {:induction false} WithKeyMultiplicity<T, K>(s: seq<T>, key: T -> K, k: K, x: T)
    ensures multiset(WithKey(s, key, k))[x] == if key(x) == k then multiset(s)[x] else 0
  {
    if s != [] {
      WithKeyMultiplicity(s[1..], key, k, x);
      assert s == [s[0]] + s[1..];
    }
  }

  /** The bucket of a prefix is a prefix of the bucket. */
  lemma WithKeyPrefix<T, K>(s: seq<T>, n: nat, key: T -> K, k: K)
    requires n <= |s|
    ensures WithKey(s[..n], key, k) <= WithKey(s, key, k)
  {
    assert s == s[..n] + s[n..];
    WithKeyAppend(s[..n], s[n..], key, k);
  }

  /** Two keys that pick out the same elements give the same bucket. */
  lemma {:induction false} WithKeyCongruent<T, K, L>(s: seq<T>, key1: T -> K, k1: K, key2: T -> L, k2: L)
    requires forall x :: x in s ==> (key1(x) == k1 <==> key2(x) == k2)
    ensures WithKey(s, key1, k1) == WithKey(s, key2, k2)
  {
    if s != [] {
      assert s[0] in s;
      assert forall x :: x in s[1..] ==> x in s;
      WithKeyCongruent(s[1..], key1, k1, key2, k2);
    }
  }

  // ---------------------------------------------------------------------
  // partitions into groups
  // ---------------------------------------------------------------------

  predicate Distinct<T(==)>(s: seq<T>)
  {
    forall i, j :: 0 <= i < j < |s| ==> s[i] != s[j]
  }

  /** Sum of f over each group WithKey(s, key, k), for k in ks in turn. */
  function SumGroups<T, K(==)>(s: seq<T>, key: T -> K, ks: seq<K>, f: T -> real): real
  {
    if ks == [] then 0.0 else SumOf(WithKey(s, key, ks[0]), f) + SumGroups(s, key, ks[1..], f)
  }

  /** Total size of the groups WithKey(s, key, k), for k in ks. */
  function CountGroups<T, K(==)>(s: seq<T>, key: T -> K, ks: seq<K>): nat
  {
    if ks == [] then 0 else |WithKey(s, key, ks[0])| + CountGroups(s, key, ks[1..])
  }

  lemma {:induction false} SumGroupsOfEmpty<T, K>(key: T -> K, ks: seq<K>, f: T -> real)
    ensures SumGroups([], key, ks, f) == 0.0
  {
    if ks != [] {
      SumGroupsOfEmpty(key, ks[1..], f);
    }
  }

  lemma {:induction false} CountGroupsOfEmpty<T, K>(key: T -> K, ks: seq<K>)
    ensures CountGroups([], key, ks) == 0
  {
    if ks != [] {
      CountGroupsOfEmpty<T, K>(key, ks[1..]);
    }
  }

  lemma {:induction false} SumGroupsCons<T, K>(x: T, rest: seq<T>, key: T -> K, ks: seq<K>, f: T -> real)
    requires Distinct(ks)
    ensures SumGroups([x] + rest, key, ks, f)
         == (if key(x) in ks then f(x) else 0.0) + SumGroups(rest, key, ks, f)
  {
    if ks != [] {
      var k := ks[0];
      WithKeyCons(x, rest, key, k);
      SumOfAppend(if key(x) == k then [x] else [], WithKey(rest, key, k), f);
      assert forall i, j :: 0 <= i < j < |ks[1..]| ==> ks[1..][i] == ks[i + 1] && ks[1..][j] == ks[j + 1];
      SumGroupsCons(x, rest, key, ks[1..], f);
      if key(x) == k {
        assert key(x) !in ks[1..] by {
          forall j | 0 <= j < |ks[1..]| ensures ks[1..][j] != k {
            assert ks[1..][j] == ks[j + 1];
          }
        }
      } else {
        assert key(x) in ks <==> key(x) in ks[1..] by {
          assert ks == [k] + ks[1..];
        }
      }
    }
  }

  lemma {:induction false} CountGroupsCons<T, K>(x: T, rest: seq<T>, key: T -> K, ks: seq<K>)
    requires Distinct(ks)
    ensures CountGroups([x] + rest, key, ks)
         == (if key(x) in ks then 1 else 0) + CountGroups(rest, key, ks)
  {
    if ks != [] {
      var k := ks[0];
      WithKeyCons(x, rest, key, k);
      assert forall i, j :: 0 <= i < j < |ks[1..]| ==> ks[1..][i] == ks[i + 1] && ks[1..][j] == ks[j + 1];
      CountGroupsCons(x, rest, key, ks[1..]);
      if key(x) == k {
        assert key(x) !in ks[1..] by {
          forall j | 0 <= j < |ks[1..]| ensures ks[1..][j] != k {
            assert ks[1..][j] == ks[j + 1];
          }
        }
      } else {
        assert key(x) in ks <==> key(x) in ks[1..] by {
          assert ks == [k] + ks[1..];
        }
      }
    }
  }

  /** Splitting s into the groups of a list of distinct keys that covers
      every element's key loses and duplicates nothing: the group sums add
      up to the sum over s. */
  lemma {:induction false} SumGroupsPartition<T, K>(s: seq<T>, key: T -> K, ks: seq<K>, f: T -> real)
    requires Distinct(ks)
    requires forall x :: x in s ==> key(x) in ks
    ensures SumGroups(s, key, ks, f) == SumOf(s, f)
  {
    if s == [] {
      SumGroupsOfEmpty(key, ks, f);
    } else {
      assert s == [s[0]] + s[1..];
      assert s[0] in s;
      assert forall x :: x in s[1..] ==> x in s;
      SumGroupsCons(s[0], s[1..], key, ks, f);
      SumGroupsPartition(s[1..], key, ks, f);
    }
  }

  /** The group sizes add up to |s| under the same conditions. */
  lemma {:induction false} CountGroupsPartition<T, K>(s: seq<T>, key: T -> K, ks: seq<K>)
    requires Distinct(ks)
    requires forall x :: x in s ==> key(x) in ks
    ensures CountGroups(s, key, ks) == |s|
  {
    if s == [] {
      CountGroupsOfEmpty<T, K>(key, ks);
    } else {
      assert s == [s[0]] + s[1..];
      assert s[0] in s;
      assert forall x :: x in s[1..] ==> x in s;
      CountGroupsCons(s[0], s[1..], key, ks);
      CountGroupsPartition(s[1..], key, ks);
    }
  }

  /** A dict of lists filled from s by appending each element to the list
      of its key: every present key holds its bucket, which is never empty,
      and an absent key has no elements. */
  ghost predicate Grouped<T, K(!new)>(groups: map<K, seq<T>>, s: seq<T>, key: T -> K)
  {
    (forall k :: k in groups ==> groups[k] == WithKey(s, key, k) && groups[k] != [])
    && (forall k :: k !in groups ==> WithKey(s, key, k) == [])
  }

  lemma GroupedEmpty<T, K(!new)>(key: T -> K)
    ensures Grouped(map[], [], key)
  {
  }

  /** groups.setdefault(key(x), []).append(x) keeps the dict grouped. */
  lemma GroupedSnoc<T, K(!new)>(groups: map<K, seq<T>>, s: seq<T>, x: T, key: T -> K)
    requires Grouped(groups, s, key)
    ensures Grouped(groups[key(x) := (if key(x) in groups then groups[key(x)] else []) + [x]], s + [x], key)
  {
    forall k {
      WithKeySnoc(s, x, key, k);
    }
  }

  /** The keys of a grouping are exactly the keys that occur in s. */
  lemma GroupedDomain<T, K(!new)>(groups: map<K, seq<T>>, s: seq<T>, key: T -> K, k: K)
    requires Grouped(groups, s, key)
    ensures k in groups <==> k in MapSeq(s, key)
  {
    var ks := MapSeq(s, key);
    if k in ks {
      var n :| 0 <= n < |ks| && ks[n] == k;
      WithKeyMember(s, key, s[n]);
    }
    if k in groups {
      var x := groups[k][0];
      assert x in WithKey(s, key, k);
      var n :| 0 <= n < |s| && s[n] == x;
      assert ks[n] == k;
    }
  }

  /** One step of filling a dict with setdefault(key(x), []).append(x):
      the key list grows exactly when the key is new, in first-appearance
      order, and the grouping stays exact. */
  lemma GroupedStep<T, K(!new)>(keys: seq<K>, groups: map<K, seq<T>>, s: seq<T>, x: T, key: T -> K)
    requires keys == Dedup(MapSeq(s, key))
    requires Grouped(groups, s, key)
    ensures key(x) in groups <==> key(x) in keys
    ensures (if key(x) in groups then keys else keys + [key(x)]) == Dedup(MapSeq(s + [x], key))
    ensures Grouped(groups[key(x) := (if key(x) in groups then groups[key(x)] else []) + [x]], s + [x], key)
  {
    GroupedDomain(groups, s, key, key(x));
    MapSeqAppend(s, [x], key);
    assert MapSeq([x], key) == [key(x)];
    DedupSnoc(MapSeq(s, key), key(x));
    GroupedSnoc(groups, s, x, key);
  }

  // ---------------------------------------------------------------------
  // distinct keys in first-appearance order (insertion order of a dict)
  // ---------------------------------------------------------------------

  /** Position of the first occurrence of x in s. */
  function FirstIndex<T(==)>(s: seq<T>, x: T): (i: nat)
    requires x in s
    ensures i < |s| && s[i] == x
    ensures forall j :: 0 <= j < i ==> s[j] != x
  {
    if s[0] == x then 0 else 1 + FirstIndex(s[1..], x)
  }

  /** The distinct elements of s, each at its first appearance: the key order
      of a dict filled by iterating over s. */
  function Dedup<T(==)>(s: seq<T>): (r: seq<T>)
    ensures Distinct(r)
    ensures forall x :: x in r ==> x in s
    ensures forall x :: x in s ==> x in r
  {
    if s == [] then []
    else
      var d := Dedup(s[..|s| - 1]);
      assert s == s[..|s| - 1] + [s[|s| - 1]];
      if s[|s| - 1] in d then d else d + [s[|s| - 1]]
  }

  /** Appending an element adds it to the distinct elements when it is new. */
  lemma DedupSnoc<T>(s: seq<T>, x: T)
    ensures Dedup(s + [x]) == if x in Dedup(s) then Dedup(s) else Dedup(s) + [x]
  {
    assert (s + [x])[..|s + [x]| - 1] == s;
  }

  /** Dedup lists the keys in order of their first appearance in s. */
  lemma {:induction false} DedupFirstAppearance<T>(s: seq<T>, i: nat, j: nat)
    requires i < j < |Dedup(s)|
    ensures Dedup(s)[i] in s && Dedup(s)[j] in s
    ensures FirstIndex(s, Dedup(s)[i]) < FirstIndex(s, Dedup(s)[j])
  {
    assert Dedup(s)[i] in Dedup(s) && Dedup(s)[j] in Dedup(s);
    var p := s[..|s| - 1];
    var y := s[|s| - 1];
    assert s == p + [y];
    var d := Dedup(p);
    forall z | z in p ensures FirstIndex(s, z) == FirstIndex(p, z) {
      var a, b := FirstIndex(s, z), FirstIndex(p, z);
      assert s[b] == z;
    }
    if y in d {
      DedupFirstAppearance(p, i, j);
    } else if j < |d| {
      DedupFirstAppearance(p, i, j);
    } else {
      assert Dedup(s)[j] == y && y !in p;
      assert Dedup(s)[i] == d[i] && d[i] in p;
    }
  }

  // ---------------------------------------------------------------------
  // stable sort by a real key (Python's sorted with key=...)
  // ---------------------------------------------------------------------

  predicate SortedBy<T>(s: seq<T>, key: T -> real)
  {
    forall i, j :: 0 <= i < j < |s| ==> key(s[i]) <= key(s[j])
  }

  /** Inserts x in front of the first element whose key is not below x's
      key; every element x passes has a strictly smaller key. */
  function InsertBy<T>(x: T, s: seq<T>, key: T -> real): (r: seq<T>)
    ensures |r| == |s| + 1
    ensures multiset(r) == multiset(s) + multiset{x}
  {
    if s == [] || key(x) <= key(s[0]) then [x] + s
    else
      assert s == [s[0]] + s[1..];
      [s[0]] + InsertBy(x, s[1..], key)
  }

  /** Insertion sort; equal keys keep their input order. */
  function SortBy<T>(s: seq<T>, key: T -> real): (r: seq<T>)
    ensures |r| == |s|
    ensures multiset(r) == multiset(s)
  {
    if s == [] then []
    else
      assert s == [s[0]] + s[1..];
      InsertBy(s[0], SortBy(s[1..], key), key)
  }

  /** Inserting an element no smaller than a bound keeps every key at or
      above the bound. */
  lemma InsertByBounded<T>(x: T, s: seq<T>, key: T -> real, v: real)
    requires v <= key(x)
    requires forall y :: y in s ==> v <= key(y)
    ensures forall y :: y in InsertBy(x, s, key) ==> v <= key(y)
  {
    var r := InsertBy(x, s, key);
    forall y | y in r ensures v <= key(y) {
      assert y in multiset(r);
    }
  }

  lemma {:induction false} InsertBySorted<T>(x: T, s: seq<T>, key: T -> real)
    requires SortedBy(s, key)
    ensures SortedBy(InsertBy(x, s, key), key)
  {
    if s == [] || key(x) <= key(s[0]) {
      var r := [x] + s;
      assert InsertBy(x, s, key) == r;
      forall i, j | 0 <= i < j < |r| ensures key(r[i]) <= key(r[j]) {
        if i == 0 {
          assert r[j] == s[j - 1];
          assert key(s[0]) <= key(s[j - 1]);
        } else {
          assert r[i] == s[i - 1] && r[j] == s[j - 1];
        }
      }
    } else {
      var t := s[1..];
      forall i, j | 0 <= i < j < |t| ensures key(t[i]) <= key(t[j]) {
        assert t[i] == s[i + 1] && t[j] == s[j + 1];
      }
      InsertBySorted(x, t, key);
      forall y | y in t ensures key(s[0]) <= key(y) {
        var k :| 0 <= k < |t| && t[k] == y;
        assert s[k + 1] == y;
      }
      InsertByBounded(x, t, key, key(s[0]));
      var u := InsertBy(x, t, key);
      var r := [s[0]] + u;
      assert InsertBy(x, s, key) == r;
      forall i, j | 0 <= i < j < |r| ensures key(r[i]) <= key(r[j]) {
        if i == 0 {
          assert r[j] == u[j - 1] && u[j - 1] in u;
        } else {
          assert r[i] == u[i - 1] && r[j] == u[j - 1];
        }
      }
    }
  }

  /** sorted() returns its input in non-decreasing key order. */
  lemma {:induction false} SortBySorted<T>(s: seq<T>, key: T -> real)
    ensures SortedBy(SortBy(s, key), key)
  {
    if s != [] {
      SortBySorted(s[1..], key);
      InsertBySorted(s[0], SortBy(s[1..], key), key);
    }
  }

  lemma {:induction false} InsertByStable<T>(x: T, s: seq<T>, key: T -> real, v: real)
    ensures WithKey(InsertBy(x, s, key), key, v)
         == (if key(x) == v then [x] else []) + WithKey(s, key, v)
  {
    if s == [] || key(x) <= key(s[0]) {
      WithKeyCons(x, s, key, v);
    } else {
      assert s == [s[0]] + s[1..];
      InsertByStable(x, s[1..], key, v);
      WithKeyCons(s[0], InsertBy(x, s[1..], key), key, v);
      WithKeyCons(s[0], s[1..], key, v);
    }
  }

  /** sorted() is stable: for every key value v, the elements with key v
      come out exactly as they came in, in the same order. */
  lemma {:induction false} SortByStable<T>(s: seq<T>, key: T -> real, v: real)
    ensures WithKey(SortBy(s, key), key, v) == WithKey(s, key, v)
  {
    if s != [] {
      SortByStable(s[1..], key, v);
      InsertByStable(s[0], SortBy(s[1..], key), key, v);
      WithKeyCons(s[0], s[1..], key, v);
      assert s == [s[0]] + s[1..];
    }
  }

  // ---------------------------------------------------------------------
  // slicing
  // ---------------------------------------------------------------------

  /** The middle of a three-part concatenation sits right after the first
      part. */
  lemma Middle<T>(a: seq<T>, b: seq<T>, c: seq<T>)
    ensures |a + b + c| == |a| + |b| + |c|
    ensures (a + b + c)[|a|..|a| + |b|] == b
    ensures forall i :: 0 <= i < |b| ==> (a + b + c)[|a| + i] == b[i]
  {
  }

  /** The end index of Python's s[:stop] for a sequence of length n:
      a negative stop counts from the end, and the index is clamped. */
  function SliceEnd(n: nat, stop: int): (e: nat)
    ensures e <= n
    ensures stop >= 0 ==> e == if stop <= n then stop else n
    ensures stop < 0 ==> e == if n + stop >= 0 then n + stop else 0
  {
    if stop >= 0 then (if stop <= n then stop else n)
    else if n + stop >= 0 then n + stop else 0
  }

  /** What a prefix leaves out of s lies in the rest of s. */
  lemma LeftOutOfPrefix<T>(s: seq<T>, n: nat, y: T)
    requires n <= |s|
    requires y in multiset(s) - multiset(s[..n])
    ensures y in s[n..]
  {
    assert s == s[..n] + s[n..];
    assert multiset(s) == multiset(s[..n]) + multiset(s[n..]);
  }

  /** Python's s[:stop]. */
  function Take<T>(s: seq<T>, stop: int): (r: seq<T>)
    ensures |r| <= |s|
    ensures r == s[..|r|]
    ensures 0 <= stop ==> |r| == if stop <= |s| then stop else |s|
    ensures stop < 0 ==> |s| - |r| == if -stop <= |s| then -stop else |s|
  {
    s[..SliceEnd(|s|, stop)]
  }

}
