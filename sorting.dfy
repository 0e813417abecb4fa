/**
 * Python's `sorted(s, key=k)` and `sorted(s, key=k, reverse=True)`: a stable
 * sort. `reverse=True` keeps equal keys in their input order too, so both are
 * one stable sort over a key order in which "descending" keys compare the
 * other way round.
 */
module Sorting {
  import opened Text

  /** A sort key together with the direction it is sorted in. */
  datatype Key =
    | Ascending(text: string)
    | DescendingText(text: string)
    | DescendingNumber(number: int)

  function Rank(k: Key): nat {
    match k
    case Ascending(_) => 0
    case DescendingText(_) => 1
    case DescendingNumber(_) => 2
  }

  /** `a` may come before `b` in the sorted output. */
  predicate KeyLe(a: Key, b: Key) {
    match (a, b)
    case (Ascending(s), Ascending(t)) => StrLe(s, t)
    case (DescendingText(s), DescendingText(t)) => StrLe(t, s)
    case (DescendingNumber(m), DescendingNumber(n)) => n <= m
    case _ => Rank(a) < Rank(b)
  }

  lemma {:induction false} KeyLeRefl(a: Key)
    ensures KeyLe(a, a)
  {
    match a
    case Ascending(s) => StrLeRefl(s);
    case DescendingText(s) => StrLeRefl(s);
    case DescendingNumber(_) =>
  }

  lemma {:induction false} KeyLeTotal(a: Key, b: Key)
    ensures KeyLe(a, b) || KeyLe(b, a)
  {
    match (a, b)
    case (Ascending(s), Ascending(t)) => StrLeTotal(s, t);
    case (DescendingText(s), DescendingText(t)) => StrLeTotal(s, t);
    case _ =>
  }

  lemma {:induction false} KeyLeTrans(a: Key, b: Key, c: Key)
    requires KeyLe(a, b) && KeyLe(b, c)
    ensures KeyLe(a, c)
  {
    match (a, b, c)
    case (Ascending(s), Ascending(t), Ascending(u)) => StrLeTrans(s, t, u);
    case (DescendingText(s), DescendingText(t), DescendingText(u)) => StrLeTrans(u, t, s);
    case _ =>
  }

  lemma {:induction false} KeyLeAntisym(a: Key, b: Key)
    requires KeyLe(a, b) && KeyLe(b, a)
    ensures a == b
  {
    match (a, b)
    case (Ascending(s), Ascending(t)) => StrLeAntisym(s, t);
    case (DescendingText(s), DescendingText(t)) => StrLeAntisym(s, t);
    case _ =>
  }

  ghost predicate SortedBy<T>(s: seq<T>, key: T -> Key) {
    forall i, j :: 0 <= i < j < |s| ==> KeyLe(key(s[i]), key(s[j]))
  }

  /** The elements of `s` whose key is `k`, in the order of `s`. */
  function WithKey<T>(s: seq<T>, key: T -> Key, k: Key): seq<T> {
    if s == [] then []
    else if key(s[0]) == k then [s[0]] + WithKey(s[1..], key, k)
    else WithKey(s[1..], key, k)
  }

  /** Stable: equal keys appear in the same relative order as in the input. */
  ghost predicate Stable<T>(r: seq<T>, s: seq<T>, key: T -> Key) {
    forall k :: WithKey(r, key, k) == WithKey(s, key, k)
  }

  /** Puts `x` just before the first element it may precede. */
  function Insert<T>(x: T, s: seq<T>, key: T -> Key): seq<T> {
    if s == [] then [x]
    else if KeyLe(key(x), key(s[0])) then [x] + s
    else [s[0]] + Insert(x, s[1..], key)
  }

  /**
   * `sorted(s, key=...)`: a permutation of `s`, ordered by the key and stable.
   * `SortedUnique` shows these three properties pin the result down.
   */
  function SortBy<T>(s: seq<T>, key: T -> Key): (r: seq<T>)
    ensures |r| == |s|
    ensures multiset(r) == multiset(s)
    ensures SortedBy(r, key)
    ensures Stable(r, s, key)
  {
    if s == [] then []
    else
      var rest := SortBy(s[1..], key);
      InsertSorted(s[0], rest, key);
      InsertStable(s, rest, key);
      assert s == [s[0]] + s[1..];
      assert |Insert(s[0], rest, key)| == |multiset(rest) + multiset{s[0]}|;
      Insert(s[0], rest, key)
  }

  /** Inserting the head of `s` into a stable arrangement of its tail is stable for `s`. */
  lemma {:induction false} InsertStable<T>(s: seq<T>, rest: seq<T>, key: T -> Key)
    requires s != [] && Stable(rest, s[1..], key)
    ensures Stable(Insert(s[0], rest, key), s, key)
  {
    InsertWithKey(s[0], rest, key);
    forall k
      ensures WithKey(Insert(s[0], rest, key), key, k) == WithKey(s, key, k)
    {
      assert ([s[0]] + rest)[1..] == rest;
      assert WithKey(rest, key, k) == WithKey(s[1..], key, k);
    }
  }

  lemma {:induction false} InsertSorted<T>(x: T, s: seq<T>, key: T -> Key)
    requires SortedBy(s, key)
    ensures multiset(Insert(x, s, key)) == multiset(s) + multiset{x}
    ensures SortedBy(Insert(x, s, key), key)
  {
    if s == [] {
    } else if KeyLe(key(x), key(s[0])) {
      SortedCons(x, s, key);
    } else {
      KeyLeTotal(key(x), key(s[0]));
      InsertSorted(x, s[1..], key);
      var tail := Insert(x, s[1..], key);
      assert s == [s[0]] + s[1..];
      forall j | 0 <= j < |tail|
        ensures KeyLe(key(s[0]), key(tail[j]))
      {
        HeadBelowMember(x, s, tail, j, key);
      }
      SortedCons(s[0], tail, key);
    }
  }

  /** Putting `x` in front of a sorted list keeps it sorted when `x` may precede its head. */
  lemma {:induction false} SortedCons<T>(x: T, s: seq<T>, key: T -> Key)
    requires SortedBy(s, key)
    requires s == [] || KeyLe(key(x), key(s[0]))
    ensures SortedBy([x] + s, key)
  {
    var r := [x] + s;
    forall i, j | 0 <= i < j < |r|
      ensures KeyLe(key(r[i]), key(r[j]))
    {
      if i == 0 {
        if j > 1 {
          KeyLeTrans(key(x), key(s[0]), key(s[j - 1]));
        }
      } else {
        assert r[i] == s[i - 1] && r[j] == s[j - 1];
      }
    }
  }

  /** Every element of `tail`, which holds `x` and the rest of `s`, may follow the head of `s`. */
  lemma {:induction false} HeadBelowMember<T>(x: T, s: seq<T>, tail: seq<T>, j: nat, key: T -> Key)
    requires SortedBy(s, key) && s != [] && KeyLe(key(s[0]), key(x))
    requires multiset(tail) == multiset(s[1..]) + multiset{x}
    requires j < |tail|
    ensures KeyLe(key(s[0]), key(tail[j]))
  {
    assert tail[j] in multiset(tail);
    if tail[j] != x {
      assert tail[j] in multiset(s[1..]);
      var m :| 0 <= m < |s[1..]| && s[1..][m] == tail[j];
      assert s[m + 1] == tail[j];
    }
  }

  /** Inserting `x` adds it in front of the elements with its key, and touches no other key. */
  lemma {:induction false} InsertWithKey<T>(x: T, s: seq<T>, key: T -> Key)
    ensures forall k :: WithKey(Insert(x, s, key), key, k) == WithKey([x] + s, key, k)
  {
    forall k
      ensures WithKey(Insert(x, s, key), key, k) == WithKey([x] + s, key, k)
    {
      InsertWithKeyAt(x, s, key, k);
    }
  }

  lemma {:induction false} InsertWithKeyAt<T>(x: T, s: seq<T>, key: T -> Key, k: Key)
    ensures WithKey(Insert(x, s, key), key, k) == WithKey([x] + s, key, k)
  {
    assert ([x] + s)[1..] == s;
    if s != [] && !KeyLe(key(x), key(s[0])) {
      KeyLeRefl(key(x));
      InsertWithKeyAt(x, s[1..], key, k);
      var tail := Insert(x, s[1..], key);
      assert ([s[0]] + tail)[1..] == tail;
      assert ([x] + s[1..])[1..] == s[1..];
      assert s == [s[0]] + s[1..];
    }
  }

  /** An element `x` of `s` shows up among the elements with its own key. */
  lemma {:induction false} WithKeyHas<T>(s: seq<T>, key: T -> Key, i: nat)
    requires i < |s|
    ensures s[i] in WithKey(s, key, key(s[i]))
  {
    if i > 0 {
      WithKeyHas(s[1..], key, i - 1);
    }
  }

  /** Every element with key `k` is an element of `s` with that key. */
  lemma {:induction false} WithKeyIn<T>(s: seq<T>, key: T -> Key, k: Key, y: T)
    requires y in WithKey(s, key, k)
    ensures y in s && key(y) == k
  {
    if s != [] && !(key(s[0]) == k && y == s[0]) {
      WithKeyIn(s[1..], key, k, y);
    }
  }

  /**
   * Two sequences that are both sorted and agree on the order of every key
   * class are equal: a stable sort has exactly one possible result.
   */
  lemma {:induction false} SortedUnique<T>(t: seq<T>, u: seq<T>, key: T -> Key)
    requires SortedBy(t, key) && SortedBy(u, key)
    requires forall k :: WithKey(t, key, k) == WithKey(u, key, k)
    ensures t == u
    decreases |t| + |u|
  {
    if t == [] && u != [] {
      assert false;
    } else if t != [] && u == [] {
      WithKeyHas(t, key, 0);
      assert false;
    } else if t != [] && u != [] {
      var kt, ku := key(t[0]), key(u[0]);
      WithKeyHas(u, key, 0);
      WithKeyIn(t, key, ku, u[0]);
      var i :| 0 <= i < |t| && t[i] == u[0];
      if i > 0 {
        assert KeyLe(kt, key(t[i]));
      } else {
        KeyLeRefl(kt);
      }
      WithKeyHas(t, key, 0);
      WithKeyIn(u, key, kt, t[0]);
      var j :| 0 <= j < |u| && u[j] == t[0];
      if j > 0 {
        assert KeyLe(ku, key(u[j]));
      } else {
        KeyLeRefl(ku);
      }
      KeyLeAntisym(kt, ku);
      assert WithKey(t, key, kt) == [t[0]] + WithKey(t[1..], key, kt);
      assert WithKey(u, key, kt) == [u[0]] + WithKey(u[1..], key, kt);
      forall k
        ensures WithKey(t[1..], key, k) == WithKey(u[1..], key, k)
      {
        if k == kt {
          var a, b := WithKey(t[1..], key, k), WithKey(u[1..], key, k);
          assert [t[0]] + a == [u[0]] + b;
          assert ([t[0]] + a)[1..] == a && ([u[0]] + b)[1..] == b;
        } else {
          assert WithKey(t, key, k) == WithKey(t[1..], key, k);
          assert WithKey(u, key, k) == WithKey(u[1..], key, k);
        }
      }
      SortedUnique(t[1..], u[1..], key);
      assert ([t[0]] + WithKey(t[1..], key, kt))[0] == t[0];
      assert ([u[0]] + WithKey(u[1..], key, kt))[0] == u[0];
      assert t == [t[0]] + t[1..];
      assert u == [u[0]] + u[1..];
    }
  }

  /** Sorting a list that is already sorted leaves it as it is. */
  lemma {:induction false} SortSorted<T>(s: seq<T>, key: T -> Key)
    requires SortedBy(s, key)
    ensures SortBy(s, key) == s
  {
    SortedUnique(SortBy(s, key), s, key);
  }

  /** Sorting twice by the same key is sorting once. */
  lemma {:induction false} SortIdempotent<T>(s: seq<T>, key: T -> Key)
    ensures SortBy(SortBy(s, key), key) == SortBy(s, key)
  {
    SortSorted(SortBy(s, key), key);
  }
}
