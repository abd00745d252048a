/** A repository of records in one JSON file: a list that behaves as an insertion-ordered map. */
module JsonStore {
  import opened Sequences

  function Find<K(==), V>(idOf: V -> K, items: seq<V>, id: K): Option<V> {
    var i := Position(idOf, items, id);
    if i < |items| then Some(items[i]) else None
  }

  function AllIds<K, V>(idOf: V -> K, items: seq<V>): (r: seq<K>)
    ensures |r| == |items| && forall i | 0 <= i < |r| :: r[i] == idOf(items[i])
  {
    seq(|items|, i requires 0 <= i < |items| => idOf(items[i]))
  }

  /** An upsert is an assignment to an insertion-ordered map: seen under its id, and only there, in place or at the end. */
  lemma PutIsAssignment<K, V>(idOf: V -> K, items: seq<V>, v: V)
    requires OneEach(idOf, items)
    ensures var after := Put(idOf, items, v);
      && OneEach(idOf, after)
      && (forall id :: Find(idOf, after, id) == if id == idOf(v) then Some(v) else Find(idOf, items, id))
      && AllIds(idOf, after) == AllIds(idOf, items) + if HasKey(idOf, items, idOf(v)) then [] else [idOf(v)]
  {
    var after := Put(idOf, items, v);
    var p := Position(idOf, items, idOf(v));
    assert HasKey(idOf, items, idOf(v)) <==> p < |items|;
    assert OneEach(idOf, after);
    forall id ensures Find(idOf, after, id) == if id == idOf(v) then Some(v) else Find(idOf, items, id) {
      var q, r := Position(idOf, after, id), Position(idOf, items, id);
      if id == idOf(v) {
        assert after[if p < |items| then p else |items|] == v;
      } else if r < |items| {
        assert after[r] == items[r];
      }
    }
    assert AllIds(idOf, after) == AllIds(idOf, items) + if HasKey(idOf, items, idOf(v)) then [] else [idOf(v)];
  }

  /** Generated identifiers, numbered in the order they are made. */
  type FreshId = nat

  predicate Below<V>(idOf: V -> FreshId, items: seq<V>, n: FreshId) {
    forall i | 0 <= i < |items| :: idOf(items[i]) < n
  }

  /** A record with an identifier nobody has yet goes to the end. */
  lemma PutLast<V>(idOf: V -> FreshId, items: seq<V>, v: V, n: FreshId)
    requires OneEach(idOf, items) && Below(idOf, items, n) && idOf(v) == n
    ensures Put(idOf, items, v) == items + [v]
    ensures OneEach(idOf, items + [v])
    ensures forall m: FreshId | m > n :: Below(idOf, items + [v], m)
  {
  }

  class JsonRepository<K(==), V(!new)> {
    const idOf: V -> K
    var items: seq<V>

    constructor (idOf: V -> K)
      ensures this.idOf == idOf && items == []
    {
      this.idOf, items := idOf, [];
    }

    method Get(id: K) returns (r: Option<V>)
      ensures r == Find(idOf, items, id)
    {
      for i := 0 to |items|
        invariant forall j | 0 <= j < i :: idOf(items[j]) != id
      {
        if idOf(items[i]) == id { return Some(items[i]); }
      }
      return None;
    }

    /** Replaces the first record with this id, or appends. */
    method Upsert(item: V)
      modifies this`items
      ensures items == Put(idOf, old(items), item)
    {
      var next, replaced := items, false;
      for i := 0 to |items|
        invariant next == items && !replaced
        invariant forall j | 0 <= j < i :: idOf(items[j]) != idOf(item)
      {
        if idOf(items[i]) == idOf(item) {
          next, replaced := next[i := item], true;
          break;
        }
      }
      if !replaced { next := next + [item]; }
      items := next;
    }
  }
}
