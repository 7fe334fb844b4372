/**
 * `Array.prototype.sort` with a key comparator. The sort is stable (as
 * ECMAScript requires since 2019) and `localeCompare` is modelled as plain
 * lexicographic order on characters. `StableSortIsUnique` shows that every
 * stable sort gives the same result, so the insertion sort below stands for
 * whatever algorithm the engine uses.
 */
module Sorting {

  /** The value a comparator compares: a display string or a number. */
  datatype SortKey = Text(s: string) | Num(n: int)

  /** Lexicographic order on strings, character by character. */
  predicate LexLe(a: string, b: string)
    decreases |a|
  {
    |a| == 0 || (|b| > 0 && (a[0] < b[0] || (a[0] == b[0] && LexLe(a[1..], b[1..]))))
  }

  /** The comparator's order. A sort never mixes the two kinds of key. */
  predicate KeyLe(a: SortKey, b: SortKey)
  {
    match (a, b)
    case (Num(x), Num(y)) => x <= y
    case (Text(x), Text(y)) => LexLe(x, y)
    case (Num(_), Text(_)) => true
    case (Text(_), Num(_)) => false
  }

  lemma {:induction false} LexLeTotal(a: string, b: string)
    ensures LexLe(a, b) || LexLe(b, a)
    ensures LexLe(a, b) && LexLe(b, a) ==> a == b
    decreases |a|
  {
    if |a| > 0 && |b| > 0 && a[0] == b[0] {
      LexLeTotal(a[1..], b[1..]);
      assert a == [a[0]] + a[1..] && b == [b[0]] + b[1..];
    }
  }

  lemma {:induction false} LexLeTransitive(a: string, b: string, c: string)
    requires LexLe(a, b) && LexLe(b, c)
    ensures LexLe(a, c)
    decreases |a|
  {
    if |a| > 0 && a[0] == b[0] && b[0] == c[0] {
      LexLeTransitive(a[1..], b[1..], c[1..]);
    }
  }

  /** The comparator is a total order: any two keys compare, and only equal keys compare both ways. */
  lemma KeyLeTotalOrder(a: SortKey, b: SortKey, c: SortKey)
    ensures KeyLe(a, a)
    ensures KeyLe(a, b) || KeyLe(b, a)
    ensures KeyLe(a, b) && KeyLe(b, a) ==> a == b
    ensures KeyLe(a, b) && KeyLe(b, c) ==> KeyLe(a, c)
  {
    if a.Text? {
      LexLeTotal(a.s, a.s);
      if b.Text? {
        LexLeTotal(a.s, b.s);
        if c.Text? && KeyLe(a, b) && KeyLe(b, c) {
          LexLeTransitive(a.s, b.s, c.s);
        }
      }
    }
  }

  /** Places `x` before the first element whose key is not below its own. */
  function Insert<T>(x: T, s: seq<T>, key: T -> SortKey): (r: seq<T>)
    ensures multiset(r) == multiset(s) + multiset{x}
  {
    if s == [] then [x]
    else if KeyLe(key(x), key(s[0])) then [x] + s
    else
      assert s == [s[0]] + s[1..];
      [s[0]] + Insert(x, s[1..], key)
  }

  /** Stable sort by key: insertion sort, earlier elements inserted last. */
  function SortBy<T>(s: seq<T>, key: T -> SortKey): (r: seq<T>)
    ensures multiset(r) == multiset(s)
  {
    if s == [] then []
    else
      assert s == [s[0]] + s[1..];
      Insert(s[0], SortBy(s[1..], key), key)
  }

  /** A single element is already sorted. */
  lemma SortBySingleton<T>(x: T, key: T -> SortKey)
    ensures SortBy([x], key) == [x]
  {
    assert [x][1..] == [];
  }

  lemma SortByLength<T>(s: seq<T>, key: T -> SortKey)
    ensures |SortBy(s, key)| == |s|
  {
    assert |multiset(SortBy(s, key))| == |multiset(s)|;
  }

  ghost predicate SortedBy<T>(s: seq<T>, key: T -> SortKey)
  {
    forall i, j :: 0 <= i < j < |s| ==> KeyLe(key(s[i]), key(s[j]))
  }

  /** The elements whose key is `k`, in their order. */
  function WithKey<T>(s: seq<T>, key: T -> SortKey, k: SortKey): seq<T>
  {
    if s == [] then []
    else (if key(s[0]) == k then [s[0]] else []) + WithKey(s[1..], key, k)
  }

  /**
   * `r` is `s` sorted stably: ordered by key, the same elements, and the
   * elements of every key in their original relative order.
   */
  ghost predicate StableSortOf<T>(r: seq<T>, s: seq<T>, key: T -> SortKey)
  {
    && SortedBy(r, key)
    && multiset(r) == multiset(s)
    && forall k :: WithKey(r, key, k) == WithKey(s, key, k)
  }

  lemma {:induction false} InsertSorted<T>(x: T, s: seq<T>, key: T -> SortKey)
    requires SortedBy(s, key)
    ensures SortedBy(Insert(x, s, key), key)
  {
    var r := Insert(x, s, key);
    if s == [] {
    } else if KeyLe(key(x), key(s[0])) {
      forall i, j | 0 <= i < j < |r| ensures KeyLe(key(r[i]), key(r[j])) {
        if i == 0 {
          KeyLeTotalOrder(key(x), key(s[0]), key(s[j - 1]));
        }
      }
    } else {
      InsertSorted(x, s[1..], key);
      var t := Insert(x, s[1..], key);
      assert multiset(t) == multiset(s[1..]) + multiset{x};
      KeyLeTotalOrder(key(x), key(s[0]), key(s[0]));
      forall i, j | 0 <= i < j < |r| ensures KeyLe(key(r[i]), key(r[j])) {
        if i == 0 {
          var y := t[j - 1];
          assert y in multiset(t);
          if y == x {
          } else {
            assert y in multiset(s[1..]);
            var m :| 0 <= m < |s[1..]| && s[1..][m] == y;
            assert s[m + 1] == y;
          }
        }
      }
    }
  }

  lemma WithKeyCons<T>(y: T, t: seq<T>, key: T -> SortKey, k: SortKey)
    ensures WithKey([y] + t, key, k) == (if key(y) == k then [y] else []) + WithKey(t, key, k)
  {
    assert ([y] + t)[0] == y && ([y] + t)[1..] == t;
  }

  lemma {:induction false} InsertWithKey<T>(x: T, s: seq<T>, key: T -> SortKey, k: SortKey)
    decreases |s|, 1
    ensures WithKey(Insert(x, s, key), key, k) == (if key(x) == k then [x] else []) + WithKey(s, key, k)
  {
    if s == [] {
      assert Insert(x, s, key) == [x] + [];
      WithKeyCons(x, [], key, k);
    } else if KeyLe(key(x), key(s[0])) {
      assert Insert(x, s, key) == [x] + s;
      WithKeyCons(x, s, key, k);
    } else {
      InsertPastWithKey(x, s, key, k);
    }
  }

  /** `x` inserted past the first element, whose key is below its own. */
  lemma {:induction false} InsertPastWithKey<T>(x: T, s: seq<T>, key: T -> SortKey, k: SortKey)
    requires s != [] && !KeyLe(key(x), key(s[0]))
    ensures WithKey(Insert(x, s, key), key, k) == (if key(x) == k then [x] else []) + WithKey(s, key, k)
    decreases |s|, 0
  {
    var w := WithKey(s[1..], key, k);
    var a := if key(x) == k then [x] else [];
    var b := if key(s[0]) == k then [s[0]] else [];
    assert WithKey(Insert(x, s, key), key, k) == b + (a + w) by {
      var t := Insert(x, s[1..], key);
      assert Insert(x, s, key) == [s[0]] + t;
      InsertWithKey(x, s[1..], key, k);
      WithKeyCons(s[0], t, key, k);
    }
    assert WithKey(s, key, k) == b + w;
    assert a == [] || b == [] by {
      KeyLeTotalOrder(key(x), key(s[0]), key(s[0]));
    }
    SwapPastEmpty(a, b, w);
  }

  lemma SwapPastEmpty<T>(a: seq<T>, b: seq<T>, w: seq<T>)
    requires a == [] || b == []
    ensures b + (a + w) == a + (b + w)
  {
    if a == [] {
      assert a + w == w && a + (b + w) == b + w;
    } else {
      assert b + (a + w) == a + w && b + w == w;
    }
  }

  /** The insertion sort is a stable sort. */
  lemma {:induction false} SortByIsStableSort<T>(s: seq<T>, key: T -> SortKey)
    ensures StableSortOf(SortBy(s, key), s, key)
  {
    if s == [] {
    } else {
      SortByIsStableSort(s[1..], key);
      var t := SortBy(s[1..], key);
      InsertSorted(s[0], t, key);
      assert s == [s[0]] + s[1..];
      forall k ensures WithKey(SortBy(s, key), key, k) == WithKey(s, key, k) {
        InsertWithKey(s[0], t, key, k);
      }
    }
  }

  lemma {:induction false} WithKeyHead<T>(r: seq<T>, key: T -> SortKey)
    requires r != []
    ensures WithKey(r, key, key(r[0])) == [r[0]] + WithKey(r[1..], key, key(r[0]))
    ensures forall k :: k != key(r[0]) ==> WithKey(r, key, k) == WithKey(r[1..], key, k)
  {
  }

  lemma {:induction false} WithKeyNonEmpty<T>(r: seq<T>, key: T -> SortKey, k: SortKey)
    requires WithKey(r, key, k) != []
    ensures exists i :: 0 <= i < |r| && key(r[i]) == k
  {
    if key(r[0]) != k {
      WithKeyNonEmpty(r[1..], key, k);
      var i :| 0 <= i < |r[1..]| && key(r[1..][i]) == k;
      assert key(r[i + 1]) == k;
    }
  }

  /**
   * Two sequences sorted by key that hold, key by key, the same elements in the
   * same order are equal: a stable sort's result is fully determined by its input.
   */
  lemma {:induction false} StableSortIsUnique<T>(r1: seq<T>, r2: seq<T>, s: seq<T>, key: T -> SortKey)
    requires StableSortOf(r1, s, key) && StableSortOf(r2, s, key)
    ensures r1 == r2
  {
    SortedSameGroupsEqual(r1, r2, key);
  }

  lemma {:induction false} SortedSameGroupsEqual<T>(r1: seq<T>, r2: seq<T>, key: T -> SortKey)
    requires SortedBy(r1, key) && SortedBy(r2, key)
    requires forall k :: WithKey(r1, key, k) == WithKey(r2, key, k)
    ensures r1 == r2
    decreases |r1| + |r2|
  {
    if r1 == [] && r2 == [] {
    } else if r1 == [] {
      WithKeyHead(r2, key);
    } else if r2 == [] {
      WithKeyHead(r1, key);
    } else {
      var k1, k2 := key(r1[0]), key(r2[0]);
      WithKeyHead(r1, key);
      WithKeyHead(r2, key);
      // The smallest key of each is present in the other, so the two heads share a key.
      WithKeyNonEmpty(r2, key, k1);
      var i :| 0 <= i < |r2| && key(r2[i]) == k1;
      WithKeyNonEmpty(r1, key, k2);
      var j :| 0 <= j < |r1| && key(r1[j]) == k2;
      if i > 0 { assert KeyLe(k2, k1); }
      if j > 0 { assert KeyLe(k1, k2); }
      KeyLeTotalOrder(k1, k2, k1);
      assert k1 == k2;
      assert r1[0] == r2[0];
      forall k ensures WithKey(r1[1..], key, k) == WithKey(r2[1..], key, k) {
        if k == k1 {
          assert [r1[0]] + WithKey(r1[1..], key, k) == [r2[0]] + WithKey(r2[1..], key, k);
          assert WithKey(r1[1..], key, k) == ([r1[0]] + WithKey(r1[1..], key, k))[1..];
          assert WithKey(r2[1..], key, k) == ([r2[0]] + WithKey(r2[1..], key, k))[1..];
        }
      }
      SortedSameGroupsEqual(r1[1..], r2[1..], key);
      assert r1 == [r1[0]] + r1[1..] && r2 == [r2[0]] + r2[1..];
    }
  }
}
