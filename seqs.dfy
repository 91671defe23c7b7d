/**
 * The few `Array` operations of the Swift standard library that the app
 * relies on: `filter`, `removeAll(where:)`, `first(where:)`,
 * `firstIndex(where:)`, `contains(where:)` and `sorted(by:)`, written as
 * functions over sequences together with the facts the app needs of them.
 */
module Seqs {
  import opened Wrappers

  /** `s.filter(keep)`: the elements of `s` that satisfy `keep`, in their original order. */
  function Filter<T(!new)>(s: seq<T>, keep: T -> bool): (r: seq<T>)
    ensures |r| <= |s|
    ensures forall x :: x in r <==> x in s && keep(x)
    ensures multiset(r) <= multiset(s)
  {
    if s == [] then []
    else
      assert s == [s[0]] + s[1..];
      (if keep(s[0]) then [s[0]] else []) + Filter(s[1..], keep)
  }

  /** Filtering distributes over concatenation: the kept elements stay in their original order. */
  lemma {:induction false} FilterConcat<T(!new)>(a: seq<T>, b: seq<T>, keep: T -> bool)
    ensures Filter(a + b, keep) == Filter(a, keep) + Filter(b, keep)
  {
    if a == [] {
      assert a + b == b;
    } else {
      assert (a + b)[1..] == a[1..] + b;
      FilterConcat(a[1..], b, keep);
    }
  }

  /** A filter that every element passes changes nothing. */
  lemma {:induction false} FilterKeepsAll<T(!new)>(s: seq<T>, keep: T -> bool)
    requires forall x :: x in s ==> keep(x)
    ensures Filter(s, keep) == s
  {
    if s != [] {
      FilterKeepsAll(s[1..], keep);
    }
  }

  /** A filter that no element passes leaves nothing. */
  lemma {:induction false} FilterKeepsNone<T(!new)>(s: seq<T>, keep: T -> bool)
    requires forall x :: x in s ==> !keep(x)
    ensures Filter(s, keep) == []
  {
    if s != [] {
      FilterKeepsNone(s[1..], keep);
    }
  }

  /** Filtering twice with the same predicate is filtering once. */
  lemma FilterIdempotent<T(!new)>(s: seq<T>, keep: T -> bool)
    ensures Filter(Filter(s, keep), keep) == Filter(s, keep)
  {
    FilterKeepsAll(Filter(s, keep), keep);
  }

  /** No two elements of `s` share a key. */
  ghost predicate UniqueBy<T, K>(s: seq<T>, key: T -> K) {
    forall i, j :: 0 <= i < j < |s| ==> key(s[i]) != key(s[j])
  }

  /** `s.contains(where: { key($0) == k })`. */
  predicate HasKey<T, K(==)>(s: seq<T>, key: T -> K, k: K) {
    s != [] && (key(s[0]) == k || HasKey(s[1..], key, k))
  }

  /** `HasKey` holds exactly when some position carries the key. */
  lemma {:induction false} HasKeyIff<T, K>(s: seq<T>, key: T -> K, k: K)
    ensures HasKey(s, key, k) <==> exists i :: 0 <= i < |s| && key(s[i]) == k
  {
    if s != [] {
      HasKeyIff(s[1..], key, k);
      if HasKey(s[1..], key, k) {
        var i :| 0 <= i < |s[1..]| && key(s[1..][i]) == k;
        assert key(s[i + 1]) == k;
      }
      if exists i :: 0 <= i < |s| && key(s[i]) == k {
        var i :| 0 <= i < |s| && key(s[i]) == k;
        if i > 0 { assert key(s[1..][i - 1]) == k; }
      }
    }
  }

  /** Appending an element whose key is new keeps the keys unique. */
  lemma AppendKeepsUnique<T, K>(s: seq<T>, key: T -> K, x: T)
    requires UniqueBy(s, key) && !HasKey(s, key, key(x))
    ensures UniqueBy(s + [x], key)
  {
    HasKeyIff(s, key, key(x));
  }

  /** A filtered sequence keeps the keys of the original unique. */
  lemma {:induction false} FilterKeepsUnique<T(!new), K>(s: seq<T>, keep: T -> bool, key: T -> K)
    requires UniqueBy(s, key)
    ensures UniqueBy(Filter(s, keep), key)
  {
    if s != [] {
      assert UniqueBy(s[1..], key) by {
        forall i, j | 0 <= i < j < |s[1..]|
          ensures key(s[1..][i]) != key(s[1..][j])
        {
          assert s[1..][i] == s[i + 1] && s[1..][j] == s[j + 1];
        }
      }
      FilterKeepsUnique(s[1..], keep, key);
      var rest := Filter(s[1..], keep);
      if keep(s[0]) {
        forall j | 0 <= j < |rest| ensures key(rest[j]) != key(s[0]) {
          assert rest[j] in s[1..];
          var k :| 0 <= k < |s[1..]| && s[1..][k] == rest[j];
          assert s[k + 1] == rest[j];
        }
        assert Filter(s, keep) == [s[0]] + rest;
      }
    }
  }

  /** `s.removeAll(where: { key($0) == k })`: every element with key `k` goes, the rest keep their order. */
  function RemoveKey<T(!new), K(==)>(s: seq<T>, key: T -> K, k: K): (r: seq<T>)
    ensures forall x :: x in r <==> x in s && key(x) != k
    ensures !HasKey(r, key, k)
    ensures multiset(r) <= multiset(s)
    ensures UniqueBy(s, key) ==> UniqueBy(r, key)
  {
    var keep := x => key(x) != k;
    var r := Filter(s, keep);
    assert UniqueBy(s, key) ==> UniqueBy(r, key) by {
      if UniqueBy(s, key) {
        FilterKeepsUnique(s, keep, key);
      }
    }
    assert !HasKey(r, key, k) by {
      forall i | 0 <= i < |r| ensures key(r[i]) != k {
        assert r[i] in r;
      }
      HasKeyIff(r, key, k);
    }
    r
  }

  /** Removing a key that is absent changes nothing. */
  lemma RemoveAbsentKey<T(!new), K>(s: seq<T>, key: T -> K, k: K)
    requires !HasKey(s, key, k)
    ensures RemoveKey(s, key, k) == s
  {
    HasKeyIff(s, key, k);
    var keep := x => key(x) != k;
    FilterKeepsAll(s, keep);
  }

  /** `s.firstIndex(where: { key($0) == k })`. */
  function FirstIndex<T, K(==)>(s: seq<T>, key: T -> K, k: K): (r: Option<nat>)
    ensures r.Some? ==> r.value < |s| && key(s[r.value]) == k
    ensures r.Some? ==> forall j :: 0 <= j < r.value ==> key(s[j]) != k
    ensures r.None? <==> !HasKey(s, key, k)
    ensures r.None? ==> forall j :: 0 <= j < |s| ==> key(s[j]) != k
  {
    if s == [] then None
    else if key(s[0]) == k then Some(0)
    else
      match FirstIndex(s[1..], key, k)
      case None =>
        assert forall j :: 1 <= j < |s| ==> s[j] == s[1..][j - 1];
        None
      case Some(i) =>
        assert s[i + 1] == s[1..][i];
        assert forall j :: 1 <= j < i + 1 ==> s[j] == s[1..][j - 1];
        Some(i + 1)
  }

  /** `s.first(where: { key($0) == k })`. */
  function FirstWithKey<T, K(==)>(s: seq<T>, key: T -> K, k: K): (r: Option<T>)
    ensures r.Some? <==> HasKey(s, key, k)
    ensures r.None? ==> forall j :: 0 <= j < |s| ==> key(s[j]) != k
    ensures r.Some? ==> r.value in s && key(r.value) == k
    ensures r.Some? ==> exists i :: 0 <= i < |s| && s[i] == r.value && forall j :: 0 <= j < i ==> key(s[j]) != k
  {
    match FirstIndex(s, key, k)
    case None => None
    case Some(i) => Some(s[i])
  }

  /** Every later element has a key no greater than every earlier one. */
  ghost predicate NonIncreasing<T>(s: seq<T>, key: T -> int) {
    forall i, j :: 0 <= i < j < |s| ==> key(s[i]) >= key(s[j])
  }

  /** Putting in front of a non-increasing sequence an element whose key is at least its first key keeps it non-increasing. */
  lemma PrependKeepsNonIncreasing<T>(h: T, s: seq<T>, key: T -> int)
    requires NonIncreasing(s, key) && (s == [] || key(h) >= key(s[0]))
    ensures NonIncreasing([h] + s, key)
  {
    var r := [h] + s;
    forall i, j | 0 <= i < j < |r| ensures key(r[i]) >= key(r[j]) {
      assert r[j] == s[j - 1];
      if i == 0 {
        assert key(s[0]) >= key(s[j - 1]);
      } else {
        assert r[i] == s[i - 1];
      }
    }
  }

  /** Inserts `x` into the non-increasing `s` before the first element whose key is smaller than `x`'s. */
  function Insert<T>(x: T, s: seq<T>, key: T -> int): (r: seq<T>)
    requires NonIncreasing(s, key)
    ensures multiset(r) == multiset(s) + multiset{x}
    ensures |r| == |s| + 1
    ensures NonIncreasing(r, key)
  {
    if s == [] then [x]
    else if key(x) >= key(s[0]) then
      PrependKeepsNonIncreasing(x, s, key);
      [x] + s
    else
      assert s == [s[0]] + s[1..];
      assert NonIncreasing(s[1..], key) by {
        forall i, j | 0 <= i < j < |s[1..]| ensures key(s[1..][i]) >= key(s[1..][j]) {
          assert s[1..][i] == s[i + 1] && s[1..][j] == s[j + 1];
        }
      }
      var rest := Insert(x, s[1..], key);
      assert key(s[0]) >= key(rest[0]) by {
        assert rest[0] in multiset(rest);
        if rest[0] != x {
          assert rest[0] in multiset(s[1..]);
          var k :| 0 <= k < |s[1..]| && s[1..][k] == rest[0];
          assert s[k + 1] == rest[0];
        }
      }
      PrependKeepsNonIncreasing(s[0], rest, key);
      [s[0]] + rest
  }

  /**
   * `s.sorted { key($0) > key($1) }`: a permutation of `s` in non-increasing key order
   * (an insertion sort; Swift does not specify the order of equal keys and neither does
   * this contract).
   */
  function SortDescending<T>(s: seq<T>, key: T -> int): (r: seq<T>)
    ensures multiset(r) == multiset(s)
    ensures |r| == |s|
    ensures NonIncreasing(r, key)
  {
    if s == [] then []
    else
      assert s == [s[0]] + s[1..];
      Insert(s[0], SortDescending(s[1..], key), key)
  }
}
