/** Python's `sorted(xs, key=f)`: a stable sort by an integer key. `sorted(..., reverse=True)`
    is also stable (equal keys keep their input order), so it is `SortBy` on the negated key. */
module Sorting {

  predicate SortedBy<T>(s: seq<T>, key: T -> int) {
    forall i, j :: 0 <= i < j < |s| ==> key(s[i]) <= key(s[j])
  }

  /** The elements of `s` whose key is `k`, in their order in `s`. */
  function WithKey<T>(s: seq<T>, key: T -> int, k: int): seq<T> {
    if s == [] then []
    else (if key(s[0]) == k then [s[0]] else []) + WithKey(s[1..], key, k)
  }

  /** `x` placed in front of the first element whose key is at least its own. */
  function Insert<T>(x: T, s: seq<T>, key: T -> int): (r: seq<T>)
    ensures multiset(r) == multiset(s) + multiset{x}
    ensures |r| == |s| + 1
  {
    if s == [] || key(x) <= key(s[0]) then [x] + s
    else
      assert s == [s[0]] + s[1..];
      [s[0]] + Insert(x, s[1..], key)
  }

  function SortBy<T>(s: seq<T>, key: T -> int): (r: seq<T>)
    ensures multiset(r) == multiset(s)
    ensures |r| == |s|
  {
    if s == [] then []
    else
      assert s == [s[0]] + s[1..];
      Insert(s[0], SortBy(s[1..], key), key)
  }

  lemma {:induction false} InsertSorted<T>(x: T, s: seq<T>, key: T -> int)
    requires SortedBy(s, key)
    ensures SortedBy(Insert(x, s, key), key)
  {
    if s != [] && key(x) > key(s[0]) {
      InsertSorted(x, s[1..], key);
      var t := Insert(x, s[1..], key);
      forall j | 0 <= j < |t| ensures key(s[0]) <= key(t[j]) {
        InsertBound(x, s[1..], key, key(s[0]), j);
      }
      var r := [s[0]] + t;
      forall i, j | 0 <= i < j < |r| ensures key(r[i]) <= key(r[j]) {
        if i > 0 {
          assert r[i] == t[i - 1] && r[j] == t[j - 1];
        } else {
          assert r[j] == t[j - 1];
        }
      }
    }
  }

  /** Every element of `Insert(x, s)` comes from `s` or is `x`, so a lower bound on the keys
      of both bounds the result. */
  lemma InsertBound<T>(x: T, s: seq<T>, key: T -> int, lo: int, j: int)
    requires lo <= key(x) && forall i :: 0 <= i < |s| ==> lo <= key(s[i])
    requires 0 <= j < |s| + 1
    ensures lo <= key(Insert(x, s, key)[j])
  {
    var t := Insert(x, s, key);
    assert t[j] in multiset(t);
    if t[j] != x {
      assert t[j] in multiset(s);
      var i :| 0 <= i < |s| && s[i] == t[j];
    }
  }

  /** The result of `SortBy` is in non-decreasing key order. */
  lemma {:induction false} SortBySorted<T>(s: seq<T>, key: T -> int)
    ensures SortedBy(SortBy(s, key), key)
  {
    if s != [] {
      SortBySorted(s[1..], key);
      InsertSorted(s[0], SortBy(s[1..], key), key);
    }
  }

  lemma EmptyOneSwap<T>(a: seq<T>, b: seq<T>, c: seq<T>)
    requires a == [] || b == []
    ensures a + (b + c) == b + (a + c)
  {
    if a == [] {
      assert a + (b + c) == b + c && a + c == c;
    } else {
      assert b + c == c && b + (a + c) == a + c;
    }
  }

  lemma {:induction false} WithKeyInsert<T>(x: T, s: seq<T>, key: T -> int, k: int)
    ensures WithKey(Insert(x, s, key), key, k) ==
            (if key(x) == k then [x] else []) + WithKey(s, key, k)
  {
    var px := if key(x) == k then [x] else [];
    if s == [] || key(x) <= key(s[0]) {
      assert ([x] + s)[1..] == s;
    } else {
      var p0 := if key(s[0]) == k then [s[0]] else [];
      assert px == [] || p0 == [];
      var t := Insert(x, s[1..], key);
      WithKeyInsert(x, s[1..], key, k);
      assert ([s[0]] + t)[1..] == t;
      calc {
        WithKey(Insert(x, s, key), key, k);
        p0 + WithKey(t, key, k);
        p0 + (px + WithKey(s[1..], key, k));
        { EmptyOneSwap(p0, px, WithKey(s[1..], key, k)); }
        px + (p0 + WithKey(s[1..], key, k));
        px + WithKey(s, key, k);
      }
    }
  }

  /** Stability: for every key, the elements with that key appear in the result in
      the order they had in the input. */
  lemma {:induction false} SortByStable<T>(s: seq<T>, key: T -> int, k: int)
    ensures WithKey(SortBy(s, key), key, k) == WithKey(s, key, k)
  {
    if s != [] {
      SortByStable(s[1..], key, k);
      WithKeyInsert(s[0], SortBy(s[1..], key), key, k);
    }
  }

  lemma {:induction false} WithKeyMultiset<T>(s: seq<T>, key: T -> int, k: int)
    ensures forall e :: e in WithKey(s, key, k) <==> e in s && key(e) == k
  {
    if s != [] {
      WithKeyMultiset(s[1..], key, k);
      assert forall e :: e in s <==> e == s[0] || e in s[1..];
    }
  }

  lemma SortedTail<T>(s: seq<T>, key: T -> int)
    requires s != [] && SortedBy(s, key)
    ensures SortedBy(s[1..], key)
  {
    forall i, j | 0 <= i < j < |s| - 1 ensures key(s[1..][i]) <= key(s[1..][j]) {
      assert s[1..][i] == s[i + 1] && s[1..][j] == s[j + 1];
    }
  }

  lemma MultisetTail<T>(a: seq<T>, b: seq<T>)
    requires a != [] && b != [] && a[0] == b[0] && multiset(a) == multiset(b)
    ensures multiset(a[1..]) == multiset(b[1..])
  {
    assert a == [a[0]] + a[1..] && b == [b[0]] + b[1..];
    assert multiset(a[1..]) == multiset(a) - multiset([a[0]]);
    assert multiset(b[1..]) == multiset(b) - multiset([b[0]]);
  }

  lemma WithKeyTail<T>(a: seq<T>, b: seq<T>, key: T -> int, k: int)
    requires a != [] && b != [] && a[0] == b[0]
    requires WithKey(a, key, k) == WithKey(b, key, k)
    ensures WithKey(a[1..], key, k) == WithKey(b[1..], key, k)
  {
    var p := if key(a[0]) == k then [a[0]] else [];
    assert WithKey(a[1..], key, k) == (p + WithKey(a[1..], key, k))[|p|..];
    assert WithKey(b[1..], key, k) == (p + WithKey(b[1..], key, k))[|p|..];
  }

  /** Two sorted orderings of one multiset start with elements of the same key. */
  lemma SameLeastKey<T>(a: seq<T>, b: seq<T>, key: T -> int)
    requires a != [] && SortedBy(a, key) && SortedBy(b, key)
    requires multiset(a) == multiset(b)
    ensures b != [] && key(a[0]) == key(b[0])
  {
    assert a[0] in multiset(b);
    var i :| 0 <= i < |b| && b[i] == a[0];
    assert b[0] in multiset(a);
    var j :| 0 <= j < |a| && a[j] == b[0];
  }

  /** `SortBy` is the one stable sort: any ordering of the same elements that is sorted
      and keeps every key's elements in input order equals `SortBy`'s result. */
  lemma {:induction false} StableSortUnique<T>(a: seq<T>, b: seq<T>, key: T -> int)
    requires SortedBy(a, key) && SortedBy(b, key)
    requires multiset(a) == multiset(b)
    requires forall k :: WithKey(a, key, k) == WithKey(b, key, k)
    ensures a == b
    decreases |a|
  {
    if a == [] {
      assert |multiset(b)| == 0;
    } else {
      SameLeastKey(a, b, key);
      var k0 := key(a[0]);
      assert WithKey(a, key, k0) == WithKey(b, key, k0);
      assert WithKey(a, key, k0) == [a[0]] + WithKey(a[1..], key, k0);
      assert WithKey(b, key, k0) == [b[0]] + WithKey(b[1..], key, k0);
      assert a[0] == WithKey(a, key, k0)[0] == b[0];
      MultisetTail(a, b);
      forall k ensures WithKey(a[1..], key, k) == WithKey(b[1..], key, k) {
        WithKeyTail(a, b, key, k);
      }
      SortedTail(a, key);
      SortedTail(b, key);
      StableSortUnique(a[1..], b[1..], key);
      assert a == [a[0]] + a[1..] && b == [b[0]] + b[1..];
    }
  }

  /** A sequence already in key order is left as it is. */
  lemma {:induction false} SortBySortedIdentity<T>(s: seq<T>, key: T -> int)
    requires SortedBy(s, key)
    ensures SortBy(s, key) == s
  {
    SortBySorted(s, key);
    forall k ensures WithKey(SortBy(s, key), key, k) == WithKey(s, key, k) {
      SortByStable(s, key, k);
    }
    StableSortUnique(SortBy(s, key), s, key);
  }

  /** Sorting neither adds nor drops an element. */
  lemma SortByMember<T>(s: seq<T>, key: T -> int, x: T)
    ensures x in SortBy(s, key) <==> x in s
  {
    assert x in SortBy(s, key) <==> x in multiset(SortBy(s, key));
    assert x in s <==> x in multiset(s);
  }

  lemma PrefixMember<T>(s: seq<T>, m: int, x: T)
    requires 0 <= m <= |s| && x in s[..m]
    ensures x in s
  {
    var i :| 0 <= i < m && s[..m][i] == x;
    assert s[i] == x;
  }

  /** Python's `xs[:n]`: the first `n` elements, or all of them when there are fewer. */
  function Take<T>(s: seq<T>, n: nat): (r: seq<T>)
    ensures |r| == (if |s| <= n then |s| else n) && r == s[..|r|]
  {
    if |s| <= n then s else s[..n]
  }
}
