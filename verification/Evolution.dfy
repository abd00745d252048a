/**
 Versioned knowledge: every change set supersedes the newest version of its target and adds
 the next one, with an event that links the two.
 */
module Evolution {
  import opened Sequences
  import opened JsonStore

  datatype Target = Target(kind: string, id: string)

  datatype ChangeSet = ChangeSet(
    id: string, target: Target, operation: string, after: string, reason: string, evidence: seq<string>, createdAt: string)

  datatype VersionStatus = Active | Superseded

  datatype Version = Version(
    id: FreshId, target: Target, version: int, validFrom: string, validTo: Option<string>, status: VersionStatus,
    snapshot: string, reason: string, supersedes: Option<FreshId>)

  datatype Event = Event(
    id: FreshId, operation: string, target: Target, changeSetId: string, fromVersion: Option<FreshId>,
    toVersion: FreshId, reason: string, evidence: seq<string>)

  function ChangeSetKey(c: ChangeSet): string { c.id }
  function VersionKey(v: Version): FreshId { v.id }
  function EventKey(e: Event): FreshId { e.id }

  /** The three repositories, and the next identifier nobody has yet. */
  datatype Store = Store(changeSets: seq<ChangeSet>, versions: seq<Version>, events: seq<Event>, next: FreshId)

  const EMPTY := Store([], [], [], 0)

  function VersionsOf(vs: seq<Version>, t: Target): seq<Version> {
    if vs == [] then []
    else VersionsOf(vs[..|vs| - 1], t) + if vs[|vs| - 1].target == t then [vs[|vs| - 1]] else []
  }

  function EventsOf(es: seq<Event>, t: Target): seq<Event> {
    if es == [] then []
    else EventsOf(es[..|es| - 1], t) + if es[|es| - 1].target == t then [es[|es| - 1]] else []
  }

  /** The last of the highest version numbers: a stable sort by number, and its last element. */
  function Highest(vs: seq<Version>): Option<Version> {
    if vs == [] then None
    else
      var n := |vs| - 1;
      match Highest(vs[..n])
      case None => Some(vs[n])
      case Some(v) => if v.version <= vs[n].version then Some(vs[n]) else Some(v)
  }

  function Retired(v: Version, at: string): Version { v.(status := Superseded, validTo := Some(at)) }

  function NextVersion(c: ChangeSet, previous: Option<Version>, id: FreshId): Version {
    Version(id, c.target, if previous.Some? then previous.value.version + 1 else 1, c.createdAt, None, Active, c.after,
            c.reason, if previous.Some? then Some(previous.value.id) else None)
  }

  function EventFor(c: ChangeSet, previous: Option<Version>, version: FreshId, id: FreshId): Event {
    Event(id, c.operation, c.target, c.id, if previous.Some? then Some(previous.value.id) else None, version, c.reason,
          c.evidence)
  }

  /** The repositories after one change set. */
  function Evolved(s: Store, c: ChangeSet): Store {
    var previous := Highest(VersionsOf(s.versions, c.target));
    var retired := if previous.Some? then Put(VersionKey, s.versions, Retired(previous.value, c.createdAt)) else s.versions;
    Store(
      Put(ChangeSetKey, s.changeSets, c),
      Put(VersionKey, retired, NextVersion(c, previous, s.next)),
      Put(EventKey, s.events, EventFor(c, previous, s.next, s.next + 1)),
      s.next + 2)
  }

  class EvolutionService {
    const changeSets: JsonRepository<string, ChangeSet>
    const versions: JsonRepository<FreshId, Version>
    const events: JsonRepository<FreshId, Event>
    var next: FreshId

    ghost predicate Valid()
      reads changeSets, versions, events
    {
      changeSets.idOf == ChangeSetKey && versions.idOf == VersionKey && events.idOf == EventKey
    }

    ghost function Contents(): Store
      reads this, changeSets, versions, events
    {
      Store(changeSets.items, versions.items, events.items, next)
    }

    constructor ()
      ensures Valid() && Contents() == EMPTY
    {
      changeSets := new JsonRepository(ChangeSetKey);
      versions := new JsonRepository(VersionKey);
      events := new JsonRepository(EventKey);
      next := 0;
    }

    method LatestVersion(t: Target) returns (r: Option<Version>)
      ensures r == Highest(VersionsOf(versions.items, t))
    {
      var mine: seq<Version> := [];
      var all := versions.items;
      assert all[..0] == [];
      for i := 0 to |all|
        invariant mine == VersionsOf(all[..i], t)
      {
        assert all[..i + 1][..i] == all[..i];
        if all[i].target == t { mine := mine + [all[i]]; }
      }
      assert all[..|all|] == all;
      r := None;
      assert mine[..0] == [];
      for i := 0 to |mine|
        invariant r == Highest(mine[..i])
      {
        assert mine[..i + 1][..i] == mine[..i];
        if r.None? || r.value.version <= mine[i].version { r := Some(mine[i]); }
      }
      assert mine[..|mine|] == mine;
    }

    method CreateEvent(c: ChangeSet) returns (e: Event)
      requires Valid()
      modifies this`next, changeSets`items, versions`items, events`items
      ensures Valid() && Contents() == Evolved(old(Contents()), c)
      ensures e == EventFor(c, Highest(VersionsOf(old(versions.items), c.target)), old(next), old(next) + 1)
    {
      hide Put, Highest, VersionsOf, EventFor, Retired;
      changeSets.Upsert(c);
      var previous := LatestVersion(c.target);
      if previous.Some? { versions.Upsert(Retired(previous.value, c.createdAt)); }
      var version := NextVersion(c, previous, next);
      versions.Upsert(version);
      e := EventFor(c, previous, version.id, next + 1);
      events.Upsert(e);
      next := next + 2;
    }

    /** By identifier alone: the kind of the target is not looked at. */
    method History(targetId: string) returns (r: seq<Event>)
      ensures r == EventsWithId(events.items, targetId)
    {
      r := [];
      var all := events.items;
      assert all[..0] == [];
      for i := 0 to |all|
        invariant r == EventsWithId(all[..i], targetId)
      {
        assert all[..i + 1][..i] == all[..i];
        if all[i].target.id == targetId { r := r + [all[i]]; }
      }
      assert all[..|all|] == all;
    }
  }

  function EventsWithId(es: seq<Event>, id: string): seq<Event> {
    if es == [] then []
    else EventsWithId(es[..|es| - 1], id) + if es[|es| - 1].target.id == id then [es[|es| - 1]] else []
  }

  // --- Chains -----------------------------------------------------------------------------

  /** Versions 1 to n of one target, each ending where the next begins, only the newest active, and one event for each. */
  predicate Chain(vs: seq<Version>, es: seq<Event>) {
    |es| == |vs| && forall i | 0 <= i < |vs| :: Link(vs, es[i], i)
  }

  predicate Link(vs: seq<Version>, e: Event, i: nat)
    requires i < |vs|
  {
    && vs[i].version == i + 1
    && vs[i].supersedes == (if i == 0 then None else Some(vs[i - 1].id))
    && (vs[i].status == Active <==> i == |vs| - 1)
    && vs[i].validTo == (if i == |vs| - 1 then None else Some(vs[i + 1].validFrom))
    && e.fromVersion == vs[i].supersedes && e.toVersion == vs[i].id
  }

  ghost predicate Inv(s: Store) {
    && OneEach(VersionKey, s.versions) && Below(VersionKey, s.versions, s.next)
    && OneEach(EventKey, s.events) && Below(EventKey, s.events, s.next)
    && forall t :: Chain(VersionsOf(s.versions, t), EventsOf(s.events, t))
  }

  lemma EmptyIsSound()
    ensures Inv(EMPTY)
  {
  }

  lemma PutOver<V>(idOf: V -> FreshId, items: seq<V>, j: nat, v: V, n: FreshId)
    requires OneEach(idOf, items) && Below(idOf, items, n) && j < |items| && idOf(items[j]) == idOf(v)
    ensures Put(idOf, items, v) == items[j := v]
    ensures OneEach(idOf, items[j := v]) && Below(idOf, items[j := v], n)
  {
  }

  lemma {:induction false} VersionsOfAppend(vs: seq<Version>, v: Version, t: Target)
    ensures VersionsOf(vs + [v], t) == VersionsOf(vs, t) + if v.target == t then [v] else []
  {
    assert (vs + [v])[..|vs|] == vs;
  }

  lemma EventsOfAppend(es: seq<Event>, e: Event, t: Target)
    ensures EventsOf(es + [e], t) == EventsOf(es, t) + if e.target == t then [e] else []
  {
    assert (es + [e])[..|es|] == es;
  }

  /** Where the newest version of a target stands; nothing of that target follows it. */
  lemma {:induction false} LastOf(vs: seq<Version>, t: Target) returns (j: nat)
    requires VersionsOf(vs, t) != []
    ensures j < |vs| && vs[j] == VersionsOf(vs, t)[|VersionsOf(vs, t)| - 1] && vs[j].target == t
    ensures forall k | j < k < |vs| :: vs[k].target != t
  {
    var n := |vs| - 1;
    if vs[n].target == t {
      j := n;
    } else {
      j := LastOf(vs[..n], t);
    }
  }

  /** Rewriting the newest version of one target leaves every other target alone. */
  lemma {:induction false} RewriteLast(vs: seq<Version>, j: nat, v: Version, t: Target)
    requires j < |vs| && vs[j].target == v.target && forall k | j < k < |vs| :: vs[k].target != v.target
    ensures t != v.target ==> VersionsOf(vs[j := v], t) == VersionsOf(vs, t)
    ensures VersionsOf(vs, v.target) != []
    ensures var mine := VersionsOf(vs, v.target); VersionsOf(vs[j := v], v.target) == mine[|mine| - 1 := v]
  {
    var n := |vs| - 1;
    if j == n {
      assert vs[j := v][..n] == vs[..n];
    } else {
      RewriteLast(vs[..n], j, v, t);
      assert vs[j := v][..n] == vs[..n][j := v];
    }
  }

  lemma {:induction false} HighestIsLast(vs: seq<Version>)
    requires forall i | 0 <= i < |vs| :: vs[i].version == i + 1
    ensures Highest(vs) == if vs == [] then None else Some(vs[|vs| - 1])
  {
    if vs != [] { HighestIsLast(vs[..|vs| - 1]); }
  }

  lemma HighestOfChain(vs: seq<Version>, es: seq<Event>)
    requires Chain(vs, es)
    ensures Highest(vs) == if vs == [] then None else Some(vs[|vs| - 1])
  {
    forall i | 0 <= i < |vs| ensures vs[i].version == i + 1 { LinkNumber(vs, es[i], i); }
    HighestIsLast(vs);
  }

  /** One target's versions after a change to it. */
  function Grown(vs: seq<Version>, c: ChangeSet, id: FreshId): (r: seq<Version>)
    ensures |r| == |vs| + 1
  {
    if vs == [] then [NextVersion(c, None, id)]
    else
      var newest := vs[|vs| - 1];
      vs[|vs| - 1 := Retired(newest, c.createdAt)] + [NextVersion(c, Some(newest), id)]
  }

  lemma LinkGrows(vs: seq<Version>, e: Event, i: nat, c: ChangeSet, id: FreshId)
    requires i < |vs| && Link(vs, e, i) && vs[|vs| - 1].version == |vs|
    ensures Link(Grown(vs, c, id), e, i)
  {
  }

  lemma NewLink(vs: seq<Version>, c: ChangeSet, id: FreshId, event: FreshId)
    requires vs != [] ==> vs[|vs| - 1].version == |vs|
    ensures Link(Grown(vs, c, id), EventFor(c, if vs == [] then None else Some(vs[|vs| - 1]), id, event), |vs|)
  {
  }

  /** A chain stays a chain when it grows. */
  lemma ChainGrows(vs: seq<Version>, es: seq<Event>, c: ChangeSet, id: FreshId, event: FreshId)
    requires Chain(vs, es)
    ensures Chain(Grown(vs, c, id), es + [EventFor(c, Highest(vs), id, event)])
  {
    hide Link, Grown;
    HighestOfChain(vs, es);
    if vs != [] { assert Link(vs, es[|vs| - 1], |vs| - 1); LinkNumber(vs, es[|vs| - 1], |vs| - 1); }
    var e := EventFor(c, Highest(vs), id, event);
    NewLink(vs, c, id, event);
    forall i | 0 <= i < |vs| + 1 ensures Link(Grown(vs, c, id), (es + [e])[i], i) {
      if i < |vs| { LinkGrows(vs, es[i], i, c, id); }
    }
  }

  lemma LinkNumber(vs: seq<Version>, e: Event, i: nat)
    requires i < |vs| && Link(vs, e, i)
    ensures vs[i].version == i + 1
  {
  }

  /** The versions after one change set, and their ids. */
  lemma EvolvedVersions(s: Store, c: ChangeSet, t: Target)
    requires Inv(s)
    ensures VersionsOf(Evolved(s, c).versions, t)
         == if t == c.target then Grown(VersionsOf(s.versions, t), c, s.next) else VersionsOf(s.versions, t)
    ensures OneEach(VersionKey, Evolved(s, c).versions) && Below(VersionKey, Evolved(s, c).versions, s.next + 2)
  {
    hide Chain, Put, OneEach, Below;
    var mine := VersionsOf(s.versions, c.target);
    assert Chain(mine, EventsOf(s.events, c.target));
    HighestOfChain(mine, EventsOf(s.events, c.target));
    var previous := Highest(mine);
    var retired := s.versions;
    if previous.Some? {
      var j := LastOf(s.versions, c.target);
      var v := Retired(previous.value, c.createdAt);
      PutOver(VersionKey, s.versions, j, v, s.next);
      RewriteLast(s.versions, j, v, t);
      retired := s.versions[j := v];
    }
    var version := NextVersion(c, previous, s.next);
    PutLast(VersionKey, retired, version, s.next);
    VersionsOfAppend(retired, version, t);
    assert VersionsOf(s.versions, t) + [] == VersionsOf(s.versions, t);
  }

  lemma EvolvedEvents(s: Store, c: ChangeSet, t: Target)
    requires Inv(s)
    ensures EventsOf(Evolved(s, c).events, t) == EventsOf(s.events, t)
      + if t == c.target then [EventFor(c, Highest(VersionsOf(s.versions, t)), s.next, s.next + 1)] else []
    ensures OneEach(EventKey, Evolved(s, c).events) && Below(EventKey, Evolved(s, c).events, s.next + 2)
  {
    hide Chain, Put, OneEach, Below, VersionsOf, Highest;
    var event := EventFor(c, Highest(VersionsOf(s.versions, c.target)), s.next, s.next + 1);
    BelowMore(s);
    PutLast(EventKey, s.events, event, s.next + 1);
    EventsOfAppend(s.events, event, t);
  }

  /** One change set, seen by one target: its own chain grows by one link, every other chain stays as it is. */
  lemma EvolvedChain(s: Store, c: ChangeSet, t: Target)
    requires Inv(s)
    ensures var after := Evolved(s, c);
      var vs, es := VersionsOf(after.versions, t), EventsOf(after.events, t);
      && Chain(vs, es)
      && vs == (if t == c.target then Grown(VersionsOf(s.versions, t), c, s.next) else VersionsOf(s.versions, t))
      && (t != c.target ==> es == EventsOf(s.events, t))
  {
    hide Chain, Evolved, OneEach, Below, VersionsOf, EventsOf, Grown, Highest;
    assert Chain(VersionsOf(s.versions, t), EventsOf(s.events, t));
    EvolvedVersions(s, c, t);
    EvolvedEvents(s, c, t);
    ChainGrows(VersionsOf(s.versions, t), EventsOf(s.events, t), c, s.next, s.next + 1);
    assert EventsOf(s.events, t) + [] == EventsOf(s.events, t);
  }

  lemma BelowMore(s: Store)
    requires Below(EventKey, s.events, s.next)
    ensures Below(EventKey, s.events, s.next + 1)
  {
  }

  lemma EvolvedKeepsInv(s: Store, c: ChangeSet)
    requires Inv(s)
    ensures Inv(Evolved(s, c))
  {
    hide Chain, Evolved, OneEach, Below, VersionsOf, EventsOf;
    forall t ensures Chain(VersionsOf(Evolved(s, c).versions, t), EventsOf(Evolved(s, c).events, t)) {
      EvolvedChain(s, c, t);
    }
    EvolvedVersions(s, c, c.target);
    EvolvedEvents(s, c, c.target);
    NextGrows(s, c);
  }

  lemma NextGrows(s: Store, c: ChangeSet) ensures Evolved(s, c).next == s.next + 2 {}

  function EvolvedAll(s: Store, cs: seq<ChangeSet>): Store {
    if cs == [] then s else Evolved(EvolvedAll(s, cs[..|cs| - 1]), cs[|cs| - 1])
  }

  function ChangesTo(cs: seq<ChangeSet>, t: Target): seq<ChangeSet> {
    if cs == [] then []
    else ChangesTo(cs[..|cs| - 1], t) + if cs[|cs| - 1].target == t then [cs[|cs| - 1]] else []
  }

  /** The version and the event say what the change set says. */
  predicate Recorded(v: Version, e: Event, c: ChangeSet) {
    && v.target == c.target && v.snapshot == c.after && v.reason == c.reason && v.validFrom == c.createdAt
    && e.target == c.target && e.operation == c.operation && e.changeSetId == c.id
    && e.reason == c.reason && e.evidence == c.evidence
  }

  lemma NewIsRecorded(s: Store, c: ChangeSet, vs: seq<Version>)
    ensures Recorded(Grown(vs, c, s.next)[|vs|], EventFor(c, Highest(VersionsOf(s.versions, c.target)), s.next, s.next + 1), c)
  {
  }

  lemma StaysRecorded(v: Version, w: Version, e: Event, c: ChangeSet)
    requires Recorded(v, e, c)
    requires w.target == v.target && w.snapshot == v.snapshot && w.reason == v.reason && w.validFrom == v.validFrom
    ensures Recorded(w, e, c)
  {
  }

  /**
   After any changes to any targets, each target has one unbroken chain, with one version and one event for each of its
   changes, in order, that say what the change set said.
   */
  lemma {:induction false} HistoriesAreChains(cs: seq<ChangeSet>, t: Target)
    ensures var s := EvolvedAll(EMPTY, cs);
      && Inv(s)
      && Chain(VersionsOf(s.versions, t), EventsOf(s.events, t))
      && |VersionsOf(s.versions, t)| == |ChangesTo(cs, t)|
      && |EventsOf(s.events, t)| == |ChangesTo(cs, t)|
      && forall i | 0 <= i < |ChangesTo(cs, t)| ::
           Recorded(VersionsOf(s.versions, t)[i], EventsOf(s.events, t)[i], ChangesTo(cs, t)[i])
  {
    hide Inv, Chain, Evolved, Grown, VersionsOf, EventsOf, Recorded, EventFor, Highest;
    if cs == [] {
      assert VersionsOf([], t) == [] && EventsOf([], t) == [] by { NoVersions(t); }
      EmptyIsSound();
      ChainOfSound(EMPTY, t);
    } else {
      var n := |cs| - 1;
      var s := EvolvedAll(EMPTY, cs[..n]);
      HistoriesAreChains(cs[..n], t);
      EvolvedKeepsInv(s, cs[n]);
      ChainOfSound(Evolved(s, cs[n]), t);
      EvolvedChain(s, cs[n], t);
      EvolvedEvents(s, cs[n], t);
      var vs, es, mine := VersionsOf(s.versions, t), EventsOf(s.events, t), ChangesTo(cs[..n], t);
      SnapshotsStay(vs, cs[n], s.next);
      assert es + [] == es && mine + [] == mine;
      if t == cs[n].target {
        NewIsRecorded(s, cs[n], vs);
        forall i | 0 <= i < |mine| ensures Recorded(Grown(vs, cs[n], s.next)[i], es[i], mine[i]) {
          StaysRecorded(vs[i], Grown(vs, cs[n], s.next)[i], es[i], mine[i]);
        }
      }
    }
  }

  lemma NoVersions(t: Target) ensures VersionsOf([], t) == [] && EventsOf([], t) == [] {}

  lemma ChainOfSound(s: Store, t: Target)
    requires Inv(s)
    ensures Chain(VersionsOf(s.versions, t), EventsOf(s.events, t))
  {
  }

  /** Superseding a version does not touch what it recorded. */
  lemma SnapshotsStay(vs: seq<Version>, c: ChangeSet, id: FreshId)
    ensures var after := Grown(vs, c, id);
      && after[|vs|].target == c.target && after[|vs|].snapshot == c.after
      && after[|vs|].reason == c.reason && after[|vs|].validFrom == c.createdAt
      && forall i | 0 <= i < |vs| ::
           && after[i].target == vs[i].target && after[i].snapshot == vs[i].snapshot && after[i].reason == vs[i].reason
           && after[i].validFrom == vs[i].validFrom && after[i].id == vs[i].id
  {
  }

  lemma {:induction false} HistoryLengths(es: seq<Event>, t: Target)
    ensures |EventsOf(es, t)| <= |EventsWithId(es, t.id)|
    ensures (forall e | e in es && e.target.id == t.id :: e.target == t) ==> EventsWithId(es, t.id) == EventsOf(es, t)
    ensures (exists e | e in es :: e.target.id == t.id && e.target != t) ==> |EventsOf(es, t)| < |EventsWithId(es, t.id)|
  {
    if es != [] {
      var n := |es| - 1;
      HistoryLengths(es[..n], t);
      assert es == es[..n] + [es[n]];
    }
  }

  /** `history` of an identifier is one target's chain of events exactly when only that target goes by it. */
  lemma HistoryIsOneChainIff(es: seq<Event>, t: Target)
    ensures EventsWithId(es, t.id) == EventsOf(es, t) <==> forall e | e in es && e.target.id == t.id :: e.target == t
  {
    HistoryLengths(es, t);
  }
}
