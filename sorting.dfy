/**
 * A stable sort by a "may precede" relation, the behaviour
 * `Array.prototype.sort` guarantees (section 23.1.3.30 of ECMAScript 2023),
 * modelled as insertion sort.
 */
module Sorting {
  ghost predicate Total<T(!new)>(le: (T, T) -> bool) {
    forall a, b :: le(a, b) || le(b, a)
  }

  ghost predicate Transitive<T(!new)>(le: (T, T) -> bool) {
    forall a, b, c :: le(a, b) && le(b, c) ==> le(a, c)
  }

  predicate Sorted<T>(le: (T, T) -> bool, s: seq<T>) {
    forall i, j :: 0 <= i < j < |s| ==> le(s[i], s[j])
  }

  /** Puts `x` before the first element it may precede. */
  function Insert<T>(le: (T, T) -> bool, x: T, s: seq<T>): (r: seq<T>)
    ensures |r| == |s| + 1
  {
    if s == [] then [x]
    else if le(x, s[0]) then [x] + s
    else [s[0]] + Insert(le, x, s[1..])
  }

  /** Inserting adds exactly `x`. */
  lemma {:induction false} InsertPermutes<T>(le: (T, T) -> bool, x: T, s: seq<T>)
    ensures multiset(Insert(le, x, s)) == multiset(s) + multiset{x}
  {
    if s != [] && !le(x, s[0]) {
      InsertPermutes(le, x, s[1..]);
      assert s == [s[0]] + s[1..];
      assert Insert(le, x, s) == [s[0]] + Insert(le, x, s[1..]);
    }
  }

  /** Each element, taken from the back, is inserted into the sorted rest. */
  function Sort<T>(le: (T, T) -> bool, s: seq<T>): (r: seq<T>)
    ensures |r| == |s|
  {
    if s == [] then [] else Insert(le, s[0], Sort(le, s[1..]))
  }

  /** The sort is a permutation of its input. */
  lemma {:induction false} SortPermutes<T>(le: (T, T) -> bool, s: seq<T>)
    ensures multiset(Sort(le, s)) == multiset(s)
  {
    if s != [] {
      SortPermutes(le, s[1..]);
      InsertPermutes(le, s[0], Sort(le, s[1..]));
      assert s == [s[0]] + s[1..];
    }
  }

  /** A value that may precede `x` and every element of `s` may precede every element after the insertion. */
  lemma {:induction false} InsertLowerBound<T>(le: (T, T) -> bool, y: T, x: T, s: seq<T>)
    requires le(y, x)
    requires forall i :: 0 <= i < |s| ==> le(y, s[i])
    ensures forall i :: 0 <= i < |Insert(le, x, s)| ==> le(y, Insert(le, x, s)[i])
  {
    if s != [] && !le(x, s[0]) {
      InsertLowerBound(le, y, x, s[1..]);
      var rest := Insert(le, x, s[1..]);
      assert Insert(le, x, s) == [s[0]] + rest;
    }
  }

  lemma {:induction false} InsertSorted<T(!new)>(le: (T, T) -> bool, x: T, s: seq<T>)
    requires Total(le) && Transitive(le)
    requires Sorted(le, s)
    ensures Sorted(le, Insert(le, x, s))
  {
    if s == [] {
    } else if le(x, s[0]) {
      var r := Insert(le, x, s);
      assert r == [x] + s;
      forall j | 1 <= j < |r|
        ensures le(x, r[j])
      {
        assert r[j] == s[j - 1];
        assert le(s[0], s[j - 1]) || j == 1;
      }
    } else {
      var rest := Insert(le, x, s[1..]);
      InsertSorted(le, x, s[1..]);
      assert le(s[0], x);
      InsertLowerBound(le, s[0], x, s[1..]);
      var r := Insert(le, x, s);
      assert r == [s[0]] + rest;
      forall i, j | 0 <= i < j < |r|
        ensures le(r[i], r[j])
      {
        if i == 0 {
          assert r[j] == rest[j - 1];
        } else {
          assert r[i] == rest[i - 1] && r[j] == rest[j - 1];
        }
      }
    }
  }

  lemma {:induction false} SortSorted<T(!new)>(le: (T, T) -> bool, s: seq<T>)
    requires Total(le) && Transitive(le)
    ensures Sorted(le, Sort(le, s))
  {
    if s != [] {
      SortSorted(le, s[1..]);
      InsertSorted(le, s[0], Sort(le, s[1..]));
    }
  }

  /** The elements whose key is `k`, in order. */
  ghost function WithKey<T, K>(key: T -> K, k: K, s: seq<T>): seq<T> {
    if s == [] then [] else (if key(s[0]) == k then [s[0]] else []) + WithKey(key, k, s[1..])
  }

  lemma {:induction false} WithKeyAppend<T, K>(key: T -> K, k: K, a: seq<T>, b: seq<T>)
    ensures WithKey(key, k, a + b) == WithKey(key, k, a) + WithKey(key, k, b)
  {
    if a == [] {
      assert a + b == b;
    } else {
      var ab := a + b;
      assert ab[0] == a[0];
      assert ab[1..] == a[1..] + b;
      WithKeyAppend(key, k, a[1..], b);
      var head := if key(a[0]) == k then [a[0]] else [];
      assert WithKey(key, k, ab) == head + WithKey(key, k, a[1..] + b);
      assert WithKey(key, k, a) == head + WithKey(key, k, a[1..]);
    }
  }

  /** Elements with the same key may precede each other in either order, which is what keeps them in place. */
  ghost predicate SameKeyMayPrecede<T(!new), K>(le: (T, T) -> bool, key: T -> K) {
    forall a, b :: key(a) == key(b) ==> le(a, b)
  }

  lemma {:induction false} InsertStable<T(!new), K>(le: (T, T) -> bool, key: T -> K, x: T, s: seq<T>, k: K)
    requires SameKeyMayPrecede(le, key)
    ensures WithKey(key, k, Insert(le, x, s)) == (if key(x) == k then [x] else []) + WithKey(key, k, s)
  {
    var own := if key(x) == k then [x] else [];
    if s == [] {
      assert WithKey(key, k, [x]) == own;
    } else if le(x, s[0]) {
      WithKeyAppend(key, k, [x], s);
      assert WithKey(key, k, [x]) == own;
    } else {
      var rest := Insert(le, x, s[1..]);
      InsertStable(le, key, x, s[1..], k);
      var head := WithKey(key, k, [s[0]]);
      WithKeyAppend(key, k, [s[0]], rest);
      WithKeyAppend(key, k, [s[0]], s[1..]);
      assert [s[0]] + s[1..] == s;
      // x and s[0] have different keys, or x would have gone first
      assert key(x) == k ==> head == [];
      assert WithKey(key, k, Insert(le, x, s)) == head + (own + WithKey(key, k, s[1..]));
    }
  }

  /** Stability: for every key, its elements keep their relative order. */
  lemma {:induction false} SortStable<T(!new), K>(le: (T, T) -> bool, key: T -> K, s: seq<T>, k: K)
    requires SameKeyMayPrecede(le, key)
    ensures WithKey(key, k, Sort(le, s)) == WithKey(key, k, s)
  {
    if s != [] {
      SortStable(le, key, s[1..], k);
      InsertStable(le, key, s[0], Sort(le, s[1..]), k);
    }
  }

  /** A relation that lets everything precede everything leaves the input as it is. */
  lemma {:induction false} SortAllEqual<T>(le: (T, T) -> bool, s: seq<T>)
    requires forall i, j :: 0 <= i < |s| && 0 <= j < |s| ==> le(s[i], s[j])
    ensures Sort(le, s) == s
  {
    if s != [] {
      SortAllEqual(le, s[1..]);
      assert [s[0]] + s[1..] == s;
    }
  }
}
