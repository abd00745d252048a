/**
 Sequence vocabulary shared by the whole model: optional and failing results,
 insertion-ordered dictionaries (`Put`), and order-preserving de-duplication
 (`Dedupe`, Python's `dict.fromkeys`).
 */
module Sequences {

  datatype Option<+T> = None | Some(value: T)

  /** `Raised` stands for every exception the source can throw. */
  datatype Result<+T> = Ok(value: T) | Raised

  predicate Distinct<T(==)>(s: seq<T>) {
    forall i, j | 0 <= i < j < |s| :: s[i] != s[j]
  }

  /** The elements of `s`, first occurrences only, in order. */
  function Dedupe<T(==,!new)>(s: seq<T>): (r: seq<T>)
    ensures forall x :: x in r <==> x in s
    ensures forall i, j | 0 <= i < j < |r| :: r[i] != r[j]
    ensures s != [] ==> r != [] && r[0] == s[0]
  {
    if s == [] then []
    else
      var front := Dedupe(s[..|s| - 1]);
      assert s == s[..|s| - 1] + [s[|s| - 1]];
      if s[|s| - 1] in front then front else front + [s[|s| - 1]]
  }

  lemma {:induction false} DedupeDistinct<T(!new)>(s: seq<T>)
    requires forall i, j | 0 <= i < j < |s| :: s[i] != s[j]
    ensures Dedupe(s) == s
  {
    if s != [] {
      DedupeDistinct(s[..|s| - 1]);
      assert s == s[..|s| - 1] + [s[|s| - 1]];
    }
  }

  /** Exactly the elements of `s`, once each, in the order in which they first occur. */
  predicate OnceInOrder<T(==)>(r: seq<T>, s: seq<T>) {
    && Distinct(r)
    && (forall i | 0 <= i < |r| :: r[i] in s) && (forall i | 0 <= i < |s| :: s[i] in r)
    && forall i, j, k | 0 <= i < j < |r| && 0 <= k < |s| && s[k] == r[j] :: r[i] in s[..k]
  }

  lemma {:induction false} DedupeOnceInOrder<T(!new)>(s: seq<T>)
    ensures OnceInOrder(Dedupe(s), s)
  {
    if s != [] {
      var n := |s| - 1;
      var front, r := s[..n], Dedupe(s);
      DedupeOnceInOrder(front);
      assert s == front + [s[n]];
      assert forall k | 0 <= k < n :: front[..k] == s[..k];
      forall i, j, k | 0 <= i < j < |r| && 0 <= k < |s| && s[k] == r[j] ensures r[i] in s[..k] {
        if k < n { assert front[k] == r[j] && front[k] in front; } else { assert r[i] in front; }
      }
    }
  }

  /** Where `s` holds a record with this key, or `|s|`. */
  function Position<K(==), V>(key: V -> K, s: seq<V>, k: K): (i: nat)
    ensures i <= |s|
    ensures i < |s| ==> key(s[i]) == k
    ensures forall j | 0 <= j < i :: key(s[j]) != k
  {
    if s == [] then 0 else if key(s[0]) == k then 0 else 1 + Position(key, s[1..], k)
  }

  /** One assignment to an insertion-ordered dictionary: overwrite in place, else append. */
  function Put<K(==), V>(key: V -> K, s: seq<V>, v: V): seq<V> {
    var i := Position(key, s, key(v));
    if i < |s| then s[i := v] else s + [v]
  }

  predicate HasKey<K(==), V>(key: V -> K, s: seq<V>, k: K) {
    exists i | 0 <= i < |s| :: key(s[i]) == k
  }

  /** No key occurs twice. */
  predicate OneEach<K(==), V>(key: V -> K, s: seq<V>) {
    forall i, j | 0 <= i < j < |s| :: key(s[i]) != key(s[j])
  }

  lemma PutFresh<K, V>(key: V -> K, s: seq<V>, v: V)
    requires !HasKey(key, s, key(v))
    ensures Put(key, s, v) == s + [v]
  {
  }

  /** An element of `b` can be taken out; what is left is the rest of the multiset. */
  lemma TakeOut<T>(b: seq<T>, x: T) returns (k: nat)
    requires x in b
    ensures k < |b| && b[k] == x
    ensures multiset(b[..k] + b[k + 1..]) == multiset(b) - multiset{x}
  {
    k :| 0 <= k < |b| && b[k] == x;
    assert b == b[..k] + [b[k]] + b[k + 1..];
  }

  /** The greatest of the times. */
  function Greatest<T>(at: T -> int, xs: seq<T>): (t: int)
    requires xs != []
    ensures forall i | 0 <= i < |xs| :: at(xs[i]) <= t
    ensures exists i | 0 <= i < |xs| :: at(xs[i]) == t
  {
    var n := |xs| - 1;
    if n == 0 then at(xs[0])
    else
      var t := Greatest(at, xs[..n]);
      assert exists i | 0 <= i < n :: at(xs[..n][i]) == t && at(xs[i]) == t;
      if t >= at(xs[n]) then t else at(xs[n])
  }
}
