/** The "top n by a key, highest first" views of the catalog:
    `[...courses].sort((a, b) => key(b) - key(a)).slice(0, n)`.
    `Array.prototype.sort` is stable, so courses with equal keys keep their
    repository order. The sort is modelled as an insertion sort, and
    `StableSortIsUnique` shows that every stable descending sort yields this
    same sequence, so the choice of algorithm does not matter. */
module Ranking {

  /** No element is followed by one with a larger key. */
  predicate SortedDesc<T>(r: seq<T>, key: T -> int) {
    forall i, j :: 0 <= i < j < |r| ==> key(r[i]) >= key(r[j])
  }

  /** The elements of `s` whose key is `k`, in their order in `s`. */
  function KeyClass<T>(s: seq<T>, key: T -> int, k: int): seq<T> {
    if s == [] then []
    else (if key(s[0]) == k then [s[0]] else []) + KeyClass(s[1..], key, k)
  }

  /** Puts `x` before the first element whose key is not larger than its own. */
  function Insert<T>(x: T, r: seq<T>, key: T -> int): (t: seq<T>)
    ensures |t| == |r| + 1
    ensures forall y :: y in t ==> y == x || y in r
  {
    if r == [] || key(r[0]) <= key(x) then [x] + r
    else [r[0]] + Insert(x, r[1..], key)
  }

  function SortDesc<T>(s: seq<T>, key: T -> int): (r: seq<T>)
    ensures |r| == |s|
  {
    if s == [] then [] else Insert(s[0], SortDesc(s[1..], key), key)
  }

  /** The first `min(n, |s|)` elements of the stable descending order. */
  function Top<T>(s: seq<T>, key: T -> int, n: nat): (r: seq<T>)
  {
    SortDesc(s, key)[..if n < |s| then n else |s|]
  }

  lemma {:induction false} InsertPermutation<T>(x: T, r: seq<T>, key: T -> int)
    ensures multiset(Insert(x, r, key)) == multiset(r) + multiset{x}
  {
    if r != [] && key(r[0]) > key(x) {
      InsertPermutation(x, r[1..], key);
      assert r == [r[0]] + r[1..];
    }
  }

  lemma {:induction false} InsertSorted<T>(x: T, r: seq<T>, key: T -> int)
    requires SortedDesc(r, key)
    ensures SortedDesc(Insert(x, r, key), key)
  {
    if r != [] && key(r[0]) > key(x) {
      InsertSorted(x, r[1..], key);
      var rest := Insert(x, r[1..], key);
      var t := [r[0]] + rest;
      assert Insert(x, r, key) == t;
      forall j | 0 < j < |t| ensures key(t[0]) >= key(t[j]) {
        assert t[j] in rest;
      }
    }
  }

  /** Inserting `x` adds it to its key class in front of the elements already there. */
  lemma {:induction false} InsertKeyClass<T>(x: T, r: seq<T>, key: T -> int, k: int)
    ensures KeyClass(Insert(x, r, key), key, k)
         == (if key(x) == k then [x] else []) + KeyClass(r, key, k)
  {
    if r == [] || key(r[0]) <= key(x) {
      assert ([x] + r)[1..] == r;
    } else {
      var rest := Insert(x, r[1..], key);
      InsertKeyClass(x, r[1..], key, k);
      var t := [r[0]] + rest;
      assert Insert(x, r, key) == t;
      assert t[0] == r[0] && t[1..] == rest;
      var head := if key(r[0]) == k then [r[0]] else [];
      assert KeyClass(t, key, k) == head + KeyClass(rest, key, k);
      assert KeyClass(r, key, k) == head + KeyClass(r[1..], key, k);
      if key(x) == k {
        assert head == [];
      }
    }
  }

  lemma {:induction false} SortDescPermutation<T>(s: seq<T>, key: T -> int)
    ensures multiset(SortDesc(s, key)) == multiset(s)
    ensures |SortDesc(s, key)| == |s|
  {
    if s != [] {
      SortDescPermutation(s[1..], key);
      InsertPermutation(s[0], SortDesc(s[1..], key), key);
      assert s == [s[0]] + s[1..];
    }
  }

  lemma {:induction false} SortDescSorted<T>(s: seq<T>, key: T -> int)
    ensures SortedDesc(SortDesc(s, key), key)
  {
    if s != [] {
      SortDescSorted(s[1..], key);
      InsertSorted(s[0], SortDesc(s[1..], key), key);
    }
  }

  /** Stability: within every key class the repository order is kept. */
  lemma {:induction false} SortDescStable<T>(s: seq<T>, key: T -> int, k: int)
    ensures KeyClass(SortDesc(s, key), key, k) == KeyClass(s, key, k)
  {
    if s != [] {
      SortDescStable(s[1..], key, k);
      InsertKeyClass(s[0], SortDesc(s[1..], key), key, k);
    }
  }

  lemma {:induction false} KeyClassMembership<T>(s: seq<T>, key: T -> int, k: int, x: T)
    ensures x in KeyClass(s, key, k) <==> x in s && key(x) == k
  {
    if s != [] {
      KeyClassMembership(s[1..], key, k, x);
      assert s == [s[0]] + s[1..];
    }
  }

  lemma NoKeyClassesMeansEmpty<T>(r: seq<T>, key: T -> int)
    requires forall k :: KeyClass(r, key, k) == []
    ensures r == []
  {
    if r != [] {
      KeyClassMembership(r, key, key(r[0]), r[0]);
    }
  }

  /** A stable descending order is unique: two sorted sequences with the same
      key classes are equal. */
  lemma {:induction false} StableSortIsUnique<T>(r1: seq<T>, r2: seq<T>, key: T -> int)
    requires SortedDesc(r1, key) && SortedDesc(r2, key)
    requires forall k :: KeyClass(r1, key, k) == KeyClass(r2, key, k)
    ensures r1 == r2
  {
    if r1 == [] {
      NoKeyClassesMeansEmpty(r2, key);
    } else if r2 == [] {
      NoKeyClassesMeansEmpty(r1, key);
    } else {
      var k1, k2 := key(r1[0]), key(r2[0]);
      KeyClassMembership(r1, key, k1, r1[0]);
      KeyClassMembership(r2, key, k1, r1[0]);
      KeyClassMembership(r1, key, k2, r2[0]);
      KeyClassMembership(r2, key, k2, r2[0]);
      var i1 :| 0 <= i1 < |r2| && r2[i1] == r1[0];
      var i2 :| 0 <= i2 < |r1| && r1[i2] == r2[0];
      assert k2 >= k1 && k1 >= k2;
      assert r1[0] == KeyClass(r1, key, k1)[0] == KeyClass(r2, key, k1)[0] == r2[0];
      forall k ensures KeyClass(r1[1..], key, k) == KeyClass(r2[1..], key, k) {
        var head: seq<T> := if k == k1 then [r1[0]] else [];
        var t1, t2 := KeyClass(r1[1..], key, k), KeyClass(r2[1..], key, k);
        assert KeyClass(r1, key, k) == head + t1;
        assert KeyClass(r2, key, k) == head + t2;
        assert (head + t1)[|head|..] == t1;
        assert (head + t2)[|head|..] == t2;
      }
      StableSortIsUnique(r1[1..], r2[1..], key);
    }
  }

  /** Any sequence that is a stable descending sort of `s` is `SortDesc(s, key)`. */
  lemma StableSortsAgree<T>(s: seq<T>, r: seq<T>, key: T -> int)
    requires SortedDesc(r, key)
    requires forall k :: KeyClass(r, key, k) == KeyClass(s, key, k)
    ensures r == SortDesc(s, key)
  {
    SortDescSorted(s, key);
    forall k ensures KeyClass(r, key, k) == KeyClass(SortDesc(s, key), key, k) {
      SortDescStable(s, key, k);
    }
    StableSortIsUnique(r, SortDesc(s, key), key);
  }

  /** The top-n view: length `min(n, |s|)`, keys non-increasing, elements drawn
      from `s`, and no element left out has a larger key than one kept. */
  lemma TopProperties<T>(s: seq<T>, key: T -> int, n: nat)
    ensures |Top(s, key, n)| == if n < |s| then n else |s|
    ensures SortedDesc(Top(s, key, n), key)
    ensures multiset(Top(s, key, n)) <= multiset(s)
    ensures n >= |s| ==> multiset(Top(s, key, n)) == multiset(s)
  {
    var sorted := SortDesc(s, key);
    SortDescPermutation(s, key);
    SortDescSorted(s, key);
    var m := if n < |s| then n else |s|;
    assert sorted == sorted[..m] + sorted[m..];
    assert multiset(sorted) == multiset(sorted[..m]) + multiset(sorted[m..]);
    if n >= |s| {
      assert sorted[..m] == sorted;
    }
  }

  /** Every element kept by `Top` has a key at least that of every element dropped. */
  lemma TopDominates<T>(s: seq<T>, key: T -> int, n: nat, i: nat, j: nat)
    requires n < |s| && i < n <= j < |s|
    ensures key(Top(s, key, n)[i]) >= key(SortDesc(s, key)[j])
  {
    SortDescPermutation(s, key);
    SortDescSorted(s, key);
  }

  lemma {:induction false} KeyClassAppend<T>(a: seq<T>, b: seq<T>, key: T -> int, k: int)
    ensures KeyClass(a + b, key, k) == KeyClass(a, key, k) + KeyClass(b, key, k)
  {
    if a == [] {
      assert a + b == b;
    } else {
      KeyClassAppend(a[1..], b, key, k);
      var ab := a + b;
      assert ab[0] == a[0] && ab[1..] == a[1..] + b;
      var head := if key(a[0]) == k then [a[0]] else [];
      assert KeyClass(ab, key, k) == head + KeyClass(a[1..] + b, key, k);
      assert KeyClass(a, key, k) == head + KeyClass(a[1..], key, k);
    }
  }

  /** Ties keep repository order in the top-n view: for every key value, the
      kept elements with that key are the first ones of `s` with that key. */
  lemma TopStable<T>(s: seq<T>, key: T -> int, n: nat, k: int)
    ensures |KeyClass(Top(s, key, n), key, k)| <= |KeyClass(s, key, k)|
    ensures KeyClass(Top(s, key, n), key, k) == KeyClass(s, key, k)[..|KeyClass(Top(s, key, n), key, k)|]
  {
    var sorted := SortDesc(s, key);
    var m := if n < |s| then n else |s|;
    assert sorted == sorted[..m] + sorted[m..];
    KeyClassAppend(sorted[..m], sorted[m..], key, k);
    SortDescStable(s, key, k);
  }
}
