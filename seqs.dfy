/** Order-preserving filtering, prefixes and a stable sort by an integer key:
    the list operations (`filter`, `slice(0, n)`, `sort`) the pages apply to
    their in-memory lists. */
module Seqs {

  /** `s.filter(p)`: the elements satisfying `p`, in their original order. */
  function Filter<T>(s: seq<T>, p: T -> bool): (r: seq<T>)
    ensures |r| <= |s|
    ensures forall i :: 0 <= i < |r| ==> r[i] in s && p(r[i])
    ensures forall i :: 0 <= i < |s| && p(s[i]) ==> s[i] in r
  {
    if s == [] then []
    else
      var rest := Filter(s[1..], p);
      assert s == [s[0]] + s[1..];
      if p(s[0]) then [s[0]] + rest else rest
  }

  /** An element is kept exactly when it is in the list and passes the test. */
  lemma FilterMembership<T>(s: seq<T>, p: T -> bool)
    ensures forall x :: x in Filter(s, p) <==> x in s && p(x)
  {
    var r := Filter(s, p);
    forall x ensures x in r <==> x in s && p(x) {
      if x in r {
        var i :| 0 <= i < |r| && r[i] == x;
      }
      if x in s && p(x) {
        var i :| 0 <= i < |s| && s[i] == x;
      }
    }
  }

  lemma {:induction false} FilterAppend<T>(a: seq<T>, b: seq<T>, p: T -> bool)
    ensures Filter(a + b, p) == Filter(a, p) + Filter(b, p)
  {
    if a == [] {
      assert a + b == b;
    } else {
      assert (a + b)[1..] == a[1..] + b;
      FilterAppend(a[1..], b, p);
    }
  }

  /** A filter that every element passes keeps the whole list. */
  lemma {:induction false} FilterKeepsAll<T>(s: seq<T>, p: T -> bool)
    requires forall i :: 0 <= i < |s| ==> p(s[i])
    ensures Filter(s, p) == s
  {
    if s != [] {
      FilterKeepsAll(s[1..], p);
    }
  }

  /** A filter that no element passes yields the empty list. */
  lemma {:induction false} FilterDropsAll<T>(s: seq<T>, p: T -> bool)
    requires forall i :: 0 <= i < |s| ==> !p(s[i])
    ensures Filter(s, p) == []
  {
    if s != [] {
      FilterDropsAll(s[1..], p);
    }
  }

  /** Two complementary filters split the list: their sizes add up to its length. */
  lemma {:induction false} FilterPartition<T>(s: seq<T>, p: T -> bool, q: T -> bool)
    requires forall x :: p(x) != q(x)
    ensures |Filter(s, p)| + |Filter(s, q)| == |s|
  {
    if s != [] {
      FilterPartition(s[1..], p, q);
    }
  }

  /** Two filters that no element passes both select at most the whole list. */
  lemma {:induction false} FilterDisjoint<T>(s: seq<T>, p: T -> bool, q: T -> bool)
    requires forall x :: !(p(x) && q(x))
    ensures |Filter(s, p)| + |Filter(s, q)| <= |s|
  {
    if s != [] {
      FilterDisjoint(s[1..], p, q);
    }
  }

  /** A stronger test keeps no more elements than a weaker one. */
  lemma {:induction false} FilterMonotone<T>(s: seq<T>, p: T -> bool, q: T -> bool)
    requires forall x :: p(x) ==> q(x)
    ensures |Filter(s, p)| <= |Filter(s, q)|
  {
    if s != [] {
      FilterMonotone(s[1..], p, q);
    }
  }

  /** `s.slice(0, n)`. */
  function Take<T>(s: seq<T>, n: nat): (r: seq<T>)
    ensures |r| == if |s| < n then |s| else n
    ensures |s| <= n ==> r == s
    ensures forall i :: 0 <= i < |r| ==> r[i] == s[i]
  {
    if |s| <= n then s else s[..n]
  }

  // ---------------------------------------------------------------------
  // Stable sort by an integer key, as `Array.prototype.sort` with the
  // comparator `(a, b) => key(a) - key(b)` (the sort is stable since ES2019).

  ghost predicate SortedBy<T>(s: seq<T>, key: T -> int) {
    forall i, j :: 0 <= i < j < |s| ==> key(s[i]) <= key(s[j])
  }

  /** The elements of `s` whose key is `k`, in order. */
  function WithKey<T>(s: seq<T>, key: T -> int, k: int): (r: seq<T>)
    ensures forall i :: 0 <= i < |r| ==> key(r[i]) == k
  {
    if s == [] then []
    else if key(s[0]) == k then [s[0]] + WithKey(s[1..], key, k)
    else WithKey(s[1..], key, k)
  }

  /** Inserts `x` in front of the first element whose key is not smaller. */
  function Insert<T>(x: T, s: seq<T>, key: T -> int): (r: seq<T>)
    ensures |r| == |s| + 1
  {
    if s == [] || key(x) <= key(s[0]) then [x] + s
    else [s[0]] + Insert(x, s[1..], key)
  }

  /** Insertion sort: the head is inserted into the sorted tail. */
  function SortByKey<T>(s: seq<T>, key: T -> int): (r: seq<T>)
    ensures |r| == |s|
  {
    if s == [] then [] else Insert(s[0], SortByKey(s[1..], key), key)
  }

  lemma {:induction false} InsertFacts<T>(x: T, s: seq<T>, key: T -> int)
    requires SortedBy(s, key)
    ensures SortedBy(Insert(x, s, key), key)
    ensures multiset(Insert(x, s, key)) == multiset{x} + multiset(s)
  {
    InsertPermutes(x, s, key);
    if s != [] && key(x) > key(s[0]) {
      var t := Insert(x, s[1..], key);
      InsertFacts(x, s[1..], key);
      InsertKeepsLowerBound(x, s[1..], key, key(s[0]));
      assert Insert(x, s, key) == [s[0]] + t;
    }
  }

  /** Insertion adds exactly `x`. */
  lemma {:induction false} InsertPermutes<T>(x: T, s: seq<T>, key: T -> int)
    ensures multiset(Insert(x, s, key)) == multiset{x} + multiset(s)
  {
    if s != [] && key(x) > key(s[0]) {
      InsertPermutes(x, s[1..], key);
      assert s == [s[0]] + s[1..];
    }
  }

  /** A lower bound of the keys of `x` and of `s` bounds the result. */
  lemma {:induction false} InsertKeepsLowerBound<T>(x: T, s: seq<T>, key: T -> int, b: int)
    requires b <= key(x) && forall i :: 0 <= i < |s| ==> b <= key(s[i])
    ensures forall i :: 0 <= i < |Insert(x, s, key)| ==> b <= key(Insert(x, s, key)[i])
  {
    if s != [] && key(x) > key(s[0]) {
      InsertKeepsLowerBound(x, s[1..], key, b);
      var t := Insert(x, s[1..], key);
      assert Insert(x, s, key) == [s[0]] + t;
    }
  }

  /** Inserting `x` in front of all equal keys: among keys equal to `key(x)`,
      `x` comes first; other key classes are unchanged. */
  lemma {:induction false} InsertWithKey<T>(x: T, s: seq<T>, key: T -> int, k: int)
    requires SortedBy(s, key)
    ensures WithKey(Insert(x, s, key), key, k)
         == if key(x) == k then [x] + WithKey(s, key, k) else WithKey(s, key, k)
  {
    if s == [] || key(x) <= key(s[0]) {
      assert ([x] + s)[1..] == s;
    } else {
      assert key(s[0]) < key(x);
      InsertWithKey(x, s[1..], key, k);
      var t := Insert(x, s[1..], key);
      assert ([s[0]] + t)[1..] == t;
      if key(x) == k {
        // s[0] has a smaller key than x, so it is not in the class of k
        assert key(s[0]) != k;
      }
    }
  }

  /** The sort yields a sorted permutation of its input in which elements
      with equal keys keep their relative order. */
  lemma {:induction false} SortByKeyFacts<T>(s: seq<T>, key: T -> int)
    ensures SortedBy(SortByKey(s, key), key)
    ensures multiset(SortByKey(s, key)) == multiset(s)
    ensures forall k :: WithKey(SortByKey(s, key), key, k) == WithKey(s, key, k)
  {
    if s != [] {
      SortByKeyFacts(s[1..], key);
      var t := SortByKey(s[1..], key);
      InsertFacts(s[0], t, key);
      assert s == [s[0]] + s[1..];
      forall k ensures WithKey(SortByKey(s, key), key, k) == WithKey(s, key, k) {
        InsertWithKey(s[0], t, key, k);
      }
    }
  }

  /** Taking a prefix keeps, for every key, a prefix of the elements with
      that key: ties stay in the order they had. */
  lemma {:induction false} WithKeyOfTake<T>(s: seq<T>, key: T -> int, k: int, n: nat)
    ensures WithKey(Take(s, n), key, k) <= WithKey(s, key, k)
  {
    if s != [] && n > 0 {
      var t := Take(s, n);
      assert t[1..] == Take(s[1..], n - 1);
      WithKeyOfTake(s[1..], key, k, n - 1);
    } else if n == 0 {
      assert Take(s, n) == [];
    }
  }

  /** The first `n` of the sorted list: at most `n` elements, all from `s`,
      in key order, and for every key a prefix of the elements of `s` with
      that key. */
  lemma SmallestFacts<T>(s: seq<T>, key: T -> int, n: nat)
    ensures var r := Take(SortByKey(s, key), n);
            |r| == (if |s| < n then |s| else n) && SortedBy(r, key)
            && (forall i :: 0 <= i < |r| ==> r[i] in s)
            && (forall k :: WithKey(r, key, k) <= WithKey(s, key, k))
  {
    var t := SortByKey(s, key);
    var r := Take(t, n);
    SortByKeyFacts(s, key);
    forall i | 0 <= i < |r| ensures r[i] in s {
      assert r[i] == t[i];
      assert t[i] in multiset(t);
    }
    forall k ensures WithKey(r, key, k) <= WithKey(s, key, k) {
      WithKeyOfTake(t, key, k, n);
    }
  }

  /** In a sorted permutation `r` of `s`, a prefix of `r` leaves out no element
      with a smaller key than some element it keeps. */
  lemma PrefixOfSortedIsLeast<T>(s: seq<T>, key: T -> int, n: nat, x: T, y: T)
    requires SortedBy(s, key)
    requires x in s && y in Take(s, n) && key(x) < key(y)
    ensures x in Take(s, n)
  {
    var j :| 0 <= j < |Take(s, n)| && Take(s, n)[j] == y;
    var i :| 0 <= i < |s| && s[i] == x;
    if i >= |Take(s, n)| {
      assert false;
    }
    assert Take(s, n)[i] == x;
  }

  // ---------------------------------------------------------------------
  // Operations on lists of records identified by a key (the pages' `id`).

  function KeyIs<T, K(==)>(key: T -> K, k: K): T -> bool {
    x => key(x) == k
  }

  function KeyIsNot<T, K(==)>(key: T -> K, k: K): T -> bool {
    x => key(x) != k
  }

  /** `s.filter(x => x.id !== k)`. */
  function RemoveByKey<T, K(==)>(s: seq<T>, key: T -> K, k: K): seq<T> {
    Filter(s, KeyIsNot(key, k))
  }

  /** Removing by key drops exactly the records with that key: the survivors
      are the others, in order, and their number is the length minus the
      number of records carrying the key; an absent key changes nothing. */
  lemma RemoveByKeyFacts<T, K>(s: seq<T>, key: T -> K, k: K)
    ensures forall i :: 0 <= i < |RemoveByKey(s, key, k)| ==> key(RemoveByKey(s, key, k)[i]) != k
    ensures forall i :: 0 <= i < |s| && key(s[i]) != k ==> s[i] in RemoveByKey(s, key, k)
    ensures |RemoveByKey(s, key, k)| + |Filter(s, KeyIs(key, k))| == |s|
    ensures (forall i :: 0 <= i < |s| ==> key(s[i]) != k) ==> RemoveByKey(s, key, k) == s
  {
    FilterPartition(s, KeyIsNot(key, k), KeyIs(key, k));
    if forall i :: 0 <= i < |s| ==> key(s[i]) != k {
      FilterKeepsAll(s, KeyIsNot(key, k));
    }
  }

  /** `s.map(x => x.id === k ? f(x) : x)`: the records with key `k` are
      rewritten in place; every other record, and the order, stay as they were. */
  function MapByKey<T, K(==)>(s: seq<T>, key: T -> K, k: K, f: T -> T): (r: seq<T>)
    ensures |r| == |s|
    ensures forall i :: 0 <= i < |s| && key(s[i]) == k ==> r[i] == f(s[i])
    ensures forall i :: 0 <= i < |s| && key(s[i]) != k ==> r[i] == s[i]
  {
    seq(|s|, i requires 0 <= i < |s| => if key(s[i]) == k then f(s[i]) else s[i])
  }

  /** Applying twice a key-preserving involution restores the list. */
  lemma MapByKeyTwice<T, K>(s: seq<T>, key: T -> K, k: K, f: T -> T)
    requires forall x :: key(f(x)) == key(x) && f(f(x)) == x
    ensures MapByKey(MapByKey(s, key, k, f), key, k, f) == s
  {
  }
}
