/**
 Sorting by a key that is compared the way Python compares strings and bytes: element by
 element, a proper prefix first.
 */
module Ordering {

  type Key = seq<nat>

  predicate AtMost(a: Key, b: Key) {
    a == [] || (b != [] && (a[0] < b[0] || (a[0] == b[0] && AtMost(a[1..], b[1..]))))
  }

  lemma {:induction false} AtMostTotal(a: Key, b: Key)
    ensures AtMost(a, b) || AtMost(b, a)
    ensures AtMost(a, b) && AtMost(b, a) ==> a == b
    ensures AtMost(a, a)
    decreases |a| + |b|
  {
    if a != [] && b != [] { AtMostTotal(a[1..], b[1..]); }
    if a != [] && b == [] { AtMostTotal(a[1..], b); }
  }

  lemma {:induction false} AtMostTransitive(a: Key, b: Key, c: Key)
    requires AtMost(a, b) && AtMost(b, c)
    ensures AtMost(a, c)
  {
    if a != [] && a[0] == b[0] && b[0] == c[0] { AtMostTransitive(a[1..], b[1..], c[1..]); }
  }

  predicate Ascending<T(!new)>(key: T -> Key, s: seq<T>) {
    forall i, j | 0 <= i < j < |s| :: AtMost(key(s[i]), key(s[j]))
  }

  ghost predicate DistinctKeys<T(!new)>(key: T -> Key, s: seq<T>) {
    forall x, y | x in s && y in s && key(x) == key(y) :: x == y
  }

  function Insert<T>(key: T -> Key, x: T, s: seq<T>): (r: seq<T>)
    ensures multiset(r) == multiset(s) + multiset{x}
  {
    if s == [] then [x]
    else if AtMost(key(x), key(s[0])) then [x] + s
    else
      assert s == [s[0]] + s[1..];
      [s[0]] + Insert(key, x, s[1..])
  }

  /** The stable sort of `s` by `key`. */
  function Sorted<T>(key: T -> Key, s: seq<T>): (r: seq<T>)
    ensures multiset(r) == multiset(s)
  {
    if s == [] then []
    else
      assert s == [s[0]] + s[1..];
      Insert(key, s[0], Sorted(key, s[1..]))
  }

  lemma SameElements<T>(a: seq<T>, b: seq<T>)
    requires multiset(a) == multiset(b)
    ensures |a| == |b| && forall x :: x in a <==> x in b
  {
    assert |a| == |multiset(a)| == |multiset(b)| == |b|;
    forall x ensures x in a <==> x in b {
      assert x in a <==> x in multiset(a);
      assert x in b <==> x in multiset(b);
    }
  }

  lemma {:induction false} InsertAscends<T(!new)>(key: T -> Key, x: T, s: seq<T>)
    requires Ascending(key, s)
    ensures Ascending(key, Insert(key, x, s))
  {
    if s != [] {
      AtMostTotal(key(x), key(s[0]));
      var r := Insert(key, x, s);
      if AtMost(key(x), key(s[0])) {
        forall j | 0 < j < |r| ensures AtMost(key(r[0]), key(r[j])) {
          if j > 1 { AtMostTransitive(key(x), key(s[0]), key(s[j - 1])); }
        }
      } else {
        var rest := Insert(key, x, s[1..]);
        InsertAscends(key, x, s[1..]);
        assert multiset(rest) == multiset(s[1..] + [x]);
        SameElements(rest, s[1..] + [x]);
        forall j | 0 < j < |r| ensures AtMost(key(r[0]), key(r[j])) {
          assert r[j] == rest[j - 1] && rest[j - 1] in s[1..] + [x];
        }
      }
    }
  }

  lemma {:induction false} SortedAscends<T(!new)>(key: T -> Key, s: seq<T>)
    ensures Ascending(key, Sorted(key, s))
  {
    if s != [] {
      SortedAscends(key, s[1..]);
      InsertAscends(key, s[0], Sorted(key, s[1..]));
    }
  }

  lemma FirstIsLeast<T(!new)>(key: T -> Key, s: seq<T>, x: T)
    requires Ascending(key, s) && x in s
    ensures AtMost(key(s[0]), key(x))
  {
    AtMostTotal(key(x), key(x));
    var i :| 0 <= i < |s| && s[i] == x;
  }

  lemma TailOf<T(!new)>(key: T -> Key, s: seq<T>)
    requires s != [] && Ascending(key, s)
    ensures multiset(s[1..]) == multiset(s) - multiset{s[0]} && Ascending(key, s[1..])
    ensures forall x | x in s[1..] :: x in s
  {
    assert s == [s[0]] + s[1..];
  }

  /** Distinct keys leave only one ascending arrangement. */
  lemma {:induction false} OneArrangement<T(!new)>(key: T -> Key, s: seq<T>, t: seq<T>)
    requires Ascending(key, s) && Ascending(key, t) && multiset(s) == multiset(t) && DistinctKeys(key, s)
    ensures s == t
  {
    hide AtMost, Ascending;
    SameElements(s, t);
    if s != [] {
      FirstIsLeast(key, s, t[0]);
      FirstIsLeast(key, t, s[0]);
      AtMostTotal(key(s[0]), key(t[0]));
      TailOf(key, s);
      TailOf(key, t);
      OneArrangement(key, s[1..], t[1..]);
      assert s == [s[0]] + s[1..] && t == [t[0]] + t[1..];
    }
  }

  /** Sorting forgets the order in which distinct keys arrive. */
  lemma SortedForgetsOrder<T(!new)>(key: T -> Key, s: seq<T>, t: seq<T>)
    requires multiset(s) == multiset(t) && DistinctKeys(key, s)
    ensures Sorted(key, s) == Sorted(key, t)
  {
    SortedAscends(key, s);
    SortedAscends(key, t);
    SameElements(Sorted(key, s), s);
    OneArrangement(key, Sorted(key, s), Sorted(key, t));
  }
}
