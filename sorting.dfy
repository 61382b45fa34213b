/**
 * The ordering the page relies on from `Array.prototype.sort` with a
 * comparator `(a, b) => key(a) - key(b)`: since ECMAScript 2019 the sort is
 * required to be stable, so elements with equal keys keep their relative
 * order. The engine's algorithm is not visible; it is modelled by a stable
 * insertion sort, and `StableOrderUnique` shows that any stable sort gives
 * the same result.
 */
module Sorting {

  /** `s` is non-decreasing in `key`. */
  predicate SortedBy<T>(s: seq<T>, key: T -> real) {
    forall i, j :: 0 <= i < j < |s| ==> key(s[i]) <= key(s[j])
  }

  /** `rank` strictly increases along `s` (it numbers the elements in their original order). */
  predicate RankIncreasing<T>(s: seq<T>, rank: T -> int) {
    forall i, j :: 0 <= i < j < |s| ==> rank(s[i]) < rank(s[j])
  }

  /** `x` comes strictly before `y` in the order "by key, ties by rank". */
  predicate Precedes<T>(x: T, y: T, key: T -> real, rank: T -> int) {
    key(x) < key(y) || (key(x) == key(y) && rank(x) < rank(y))
  }

  /** `s` is sorted by key, and elements with equal keys appear in increasing rank. */
  predicate StableOrder<T>(s: seq<T>, key: T -> real, rank: T -> int) {
    forall i, j :: 0 <= i < j < |s| ==> Precedes(s[i], s[j], key, rank)
  }

  /** Puts `x` in front of the first element whose key is not smaller than its own. */
  function Insert<T>(x: T, s: seq<T>, key: T -> real): (r: seq<T>)
    ensures |r| == |s| + 1
  {
    if |s| == 0 || key(x) <= key(s[0]) then [x] + s
    else [s[0]] + Insert(x, s[1..], key)
  }

  /** The stable sort by `key` of `s`. */
  function SortBy<T>(s: seq<T>, key: T -> real): (r: seq<T>)
    ensures |r| == |s|
  {
    if |s| == 0 then [] else Insert(s[0], SortBy(s[1..], key), key)
  }

  /** Inserting adds exactly `x`. */
  lemma {:induction false} InsertElements<T>(x: T, s: seq<T>, key: T -> real)
    ensures multiset(Insert(x, s, key)) == multiset(s) + multiset{x}
  {
    if s != [] && !(key(x) <= key(s[0])) {
      InsertElements(x, s[1..], key);
      assert s == [s[0]] + s[1..];
    }
  }

  /** Sorting rearranges the elements and neither adds nor drops any. */
  lemma {:induction false} SortByElements<T>(s: seq<T>, key: T -> real)
    ensures multiset(SortBy(s, key)) == multiset(s)
  {
    if s != [] {
      SortByElements(s[1..], key);
      InsertElements(s[0], SortBy(s[1..], key), key);
      assert s == [s[0]] + s[1..];
    }
  }

  lemma {:induction false} InsertSorted<T>(x: T, s: seq<T>, key: T -> real)
    requires SortedBy(s, key)
    ensures SortedBy(Insert(x, s, key), key)
  {
    if s == [] || key(x) <= key(s[0]) {
    } else {
      InsertSorted(x, s[1..], key);
      var t := Insert(x, s[1..], key);
      InsertElements(x, s[1..], key);
      forall j | 0 <= j < |t| ensures key(s[0]) <= key(t[j]) {
        assert t[j] in multiset(t);
        assert t[j] == x || t[j] in multiset(s[1..]);
      }
    }
  }

  /** The sort result is non-decreasing in the key and is a permutation of the input. */
  lemma {:induction false} SortBySorted<T>(s: seq<T>, key: T -> real)
    ensures SortedBy(SortBy(s, key), key)
    ensures multiset(SortBy(s, key)) == multiset(s)
  {
    SortByElements(s, key);
    if s != [] {
      SortBySorted(s[1..], key);
      InsertSorted(s[0], SortBy(s[1..], key), key);
    }
  }

  /** Putting in front an element that precedes all others keeps a stable order. */
  lemma ConsStable<T>(y: T, t: seq<T>, key: T -> real, rank: T -> int)
    requires StableOrder(t, key, rank)
    requires forall j :: 0 <= j < |t| ==> Precedes(y, t[j], key, rank)
    ensures StableOrder([y] + t, key, rank)
  {
    var r := [y] + t;
    forall i, j | 0 <= i < j < |r| ensures Precedes(r[i], r[j], key, rank) {
      assert r[j] == t[j - 1];
      if i > 0 {
        assert r[i] == t[i - 1];
      }
    }
  }

  lemma {:induction false} InsertStable<T>(x: T, s: seq<T>, key: T -> real, rank: T -> int)
    requires StableOrder(s, key, rank)
    requires forall y :: y in s ==> rank(x) < rank(y)
    ensures StableOrder(Insert(x, s, key), key, rank)
  {
    if s == [] || key(x) <= key(s[0]) {
      forall j | 0 <= j < |s| ensures Precedes(x, s[j], key, rank) {
        assert s[j] in s;
        assert j == 0 || Precedes(s[0], s[j], key, rank);
      }
      ConsStable(x, s, key, rank);
    } else {
      StableOrderTail(s, key, rank);
      InsertStable(x, s[1..], key, rank);
      var t := Insert(x, s[1..], key);
      InsertElements(x, s[1..], key);
      forall j | 0 <= j < |t| ensures Precedes(s[0], t[j], key, rank) {
        assert t[j] in multiset(t);
        if t[j] != x {
          assert t[j] in multiset(s[1..]);
          var k :| 0 <= k < |s[1..]| && s[1..][k] == t[j];
          assert s[k + 1] == t[j];
        }
      }
      ConsStable(s[0], t, key, rank);
    }
  }

  /** Stability: when `rank` numbers the input in order, equal keys keep that order in the result. */
  lemma {:induction false} SortByStable<T>(s: seq<T>, key: T -> real, rank: T -> int)
    requires RankIncreasing(s, rank)
    ensures StableOrder(SortBy(s, key), key, rank)
  {
    if s != [] {
      assert RankIncreasing(s[1..], rank);
      SortByStable(s[1..], key, rank);
      var t := SortBy(s[1..], key);
      SortByElements(s[1..], key);
      forall y | y in t ensures rank(s[0]) < rank(y) {
        assert y in multiset(t);
        assert y in multiset(s[1..]);
        var k :| 0 <= k < |s[1..]| && s[1..][k] == y;
        assert s[k + 1] == y;
      }
      InsertStable(s[0], t, key, rank);
    }
  }

  lemma {:induction false} PrecedesFirst<T>(a: seq<T>, y: T, key: T -> real, rank: T -> int)
    requires StableOrder(a, key, rank)
    requires y in a && a != [] && y != a[0]
    ensures Precedes(a[0], y, key, rank)
  {
    var k :| 0 <= k < |a| && a[k] == y;
    assert k != 0;
  }

  lemma StableOrderTail<T>(a: seq<T>, key: T -> real, rank: T -> int)
    requires a != [] && StableOrder(a, key, rank)
    ensures StableOrder(a[1..], key, rank)
  {
    forall i, j | 0 <= i < j < |a[1..]| ensures Precedes(a[1..][i], a[1..][j], key, rank) {
      assert a[1..][i] == a[i + 1] && a[1..][j] == a[j + 1];
    }
  }

  lemma SameTail<T>(a: seq<T>, b: seq<T>)
    requires a != [] && b != [] && a[0] == b[0] && multiset(a) == multiset(b)
    ensures multiset(a[1..]) == multiset(b[1..])
  {
    assert a == [a[0]] + a[1..];
    assert multiset(a[1..]) == multiset(a) - multiset{a[0]};
    assert b == [b[0]] + b[1..];
    assert multiset(b[1..]) == multiset(b) - multiset{b[0]};
  }

  /**
   * Two arrangements of the same elements that are both sorted by key with
   * ties in rank order are equal: a stable sort's result does not depend on
   * the sorting algorithm.
   */
  lemma {:induction false} StableOrderUnique<T>(a: seq<T>, b: seq<T>, key: T -> real, rank: T -> int)
    requires multiset(a) == multiset(b)
    requires StableOrder(a, key, rank) && StableOrder(b, key, rank)
    ensures a == b
    decreases |a|
  {
    assert |a| == |multiset(a)| == |multiset(b)| == |b|;
    if a != [] {
      assert a[0] in multiset(b) && b[0] in multiset(a);
      if a[0] != b[0] {
        PrecedesFirst(a, b[0], key, rank);
        PrecedesFirst(b, a[0], key, rank);
        assert false;
      }
      SameTail(a, b);
      StableOrderTail(a, key, rank);
      StableOrderTail(b, key, rank);
      StableOrderUnique(a[1..], b[1..], key, rank);
      assert a == [a[0]] + a[1..] && b == [b[0]] + b[1..];
    }
  }
}
