/**
 Watching a directory: each scan compares the files with the latest snapshot of the same root,
 records one event and one signal for every difference, and saves a new snapshot.
 */
module Monitor {
  import opened Sequences
  import opened JsonStore

  datatype FileRecord = FileRecord(hash: string, mtime: int, size: nat, suffix: string)

  /** A dictionary from paths to records, as its items in order. */
  datatype File = File(path: string, record: FileRecord)

  datatype Kind = Created | Modified | Deleted

  datatype Change = Change(
    path: string, kind: Kind, oldHash: Option<string>, newHash: Option<string>,
    oldMtime: Option<int>, newMtime: Option<int>, size: nat, suffix: string)

  datatype Event = Event(id: FreshId, root: string, change: Change, signal: Option<FreshId>)

  datatype Signal = Signal(id: FreshId, source: string, priority: nat)

  datatype Snapshot = Snapshot(id: FreshId, root: string, files: seq<File>, events: seq<FreshId>, createdAt: int)

  function PathOf(f: File): string { f.path }
  function ChangePath(c: Change): string { c.path }
  function EventKey(e: Event): FreshId { e.id }
  function SignalKey(s: Signal): FreshId { s.id }
  function SnapshotKey(s: Snapshot): FreshId { s.id }

  function CreatedAt(f: File): Change {
    Change(f.path, Created, None, Some(f.record.hash), None, Some(f.record.mtime), f.record.size, f.record.suffix)
  }

  function ModifiedAt(was: FileRecord, f: File): Change {
    Change(f.path, Modified, Some(was.hash), Some(f.record.hash), Some(was.mtime), Some(f.record.mtime),
           f.record.size, f.record.suffix)
  }

  function DeletedAt(f: File): Change {
    Change(f.path, Deleted, Some(f.record.hash), None, Some(f.record.mtime), None, f.record.size, f.record.suffix)
  }

  /** What a file that is there now says against the previous snapshot. */
  function Arrival(previous: seq<File>, f: File): seq<Change> {
    match Find(PathOf, previous, f.path)
    case None => [CreatedAt(f)]
    case Some(was) => if was.record.hash != f.record.hash then [ModifiedAt(was.record, f)] else []
  }

  function Departure(current: seq<File>, f: File): seq<Change> {
    if Find(PathOf, current, f.path).None? then [DeletedAt(f)] else []
  }

  function Arrivals(previous: seq<File>, current: seq<File>): seq<Change> {
    if current == [] then [] else Arrivals(previous, current[..|current| - 1]) + Arrival(previous, current[|current| - 1])
  }

  function Departures(previous: seq<File>, current: seq<File>): seq<Change> {
    if previous == [] then []
    else Departures(previous[..|previous| - 1], current) + Departure(current, previous[|previous| - 1])
  }

  function Changes(previous: seq<File>, current: seq<File>): seq<Change> {
    Arrivals(previous, current) + Departures(previous, current)
  }

  function Priority(c: Change): nat { if c.kind == Deleted then 5 else 8 }

  method Diff(previous: seq<File>, current: seq<File>) returns (changes: seq<Change>)
    ensures changes == Changes(previous, current)
  {
    changes := [];
    assert current[..0] == [] && previous[..0] == [];
    for i := 0 to |current|
      invariant changes == Arrivals(previous, current[..i])
    {
      assert current[..i + 1][..i] == current[..i];
      changes := changes + Arrival(previous, current[i]);
    }
    assert current[..|current|] == current && previous[..|previous|] == previous;
    for i := 0 to |previous|
      invariant changes == Arrivals(previous, current) + Departures(previous[..i], current)
    {
      assert previous[..i + 1][..i] == previous[..i];
      changes := changes + Departure(current, previous[i]);
    }
  }

  // --- Replaying a difference -------------------------------------------------------------

  function HashesOf(files: seq<File>): map<string, string> {
    if files == [] then map[]
    else HashesOf(files[..|files| - 1])[files[|files| - 1].path := files[|files| - 1].record.hash]
  }

  function Applied(m: map<string, string>, c: Change): map<string, string> {
    if c.newHash.Some? then m[c.path := c.newHash.value] else m - {c.path}
  }

  function Replay(m: map<string, string>, changes: seq<Change>): map<string, string> {
    if changes == [] then m else Applied(Replay(m, changes[..|changes| - 1]), changes[|changes| - 1])
  }

  function At(m: map<string, string>, path: string): Option<string> { if path in m then Some(m[path]) else None }

  function HashIn(files: seq<File>, path: string): Option<string> {
    match Find(PathOf, files, path) case None => None case Some(f) => Some(f.record.hash)
  }

  /** What a path's only change, if it has one, leaves behind. */
  predicate Leaves(changes: seq<Change>, path: string, before: Option<string>, after: Option<string>) {
    match Find(ChangePath, changes, path)
    case None => after == before
    case Some(c) => after == c.newHash
  }

  lemma {:induction false} HashesAt(files: seq<File>, path: string)
    requires OneEach(PathOf, files)
    ensures At(HashesOf(files), path) == HashIn(files, path)
  {
    if files != [] {
      var n := |files| - 1;
      HashesAt(files[..n], path);
      FindAppend(PathOf, files[..n], files[n], path);
      assert files == files[..n] + [files[n]];
    }
  }

  /** Appending a record with a new id. */
  lemma FindAppend<K, V>(idOf: V -> K, items: seq<V>, v: V, id: K)
    requires OneEach(idOf, items + [v])
    ensures Find(idOf, items + [v], id) == if idOf(v) == id then Some(v) else Find(idOf, items, id)
  {
    var all := items + [v];
    var p, q := Position(idOf, items, id), Position(idOf, all, id);
    assert all[|items|] == v;
    assert forall i | 0 <= i < |items| :: all[i] == items[i];
    if p < |items| { assert idOf(all[p]) == id; }
  }

  lemma AppliedAt(m: map<string, string>, c: Change, path: string)
    ensures At(Applied(m, c), path) == if path == c.path then c.newHash else At(m, path)
  {
  }

  lemma {:induction false} ReplayAt(m: map<string, string>, changes: seq<Change>, path: string)
    requires OneEach(ChangePath, changes)
    ensures Leaves(changes, path, At(m, path), At(Replay(m, changes), path))
  {
    hide At, Applied;
    if changes != [] {
      var n := |changes| - 1;
      var front, c := changes[..n], changes[n];
      assert changes == front + [c];
      ReplayAt(m, front, path);
      FindAppend(ChangePath, front, c, path);
      AppliedAt(Replay(m, front), c, path);
    }
  }

  /** The change a path deserves. */
  function Deserved(was: Option<File>, f: Option<File>): Option<Change> {
    if f.Some? then
      if was.None? then Some(CreatedAt(f.value))
      else if was.value.record.hash != f.value.record.hash then Some(ModifiedAt(was.value.record, f.value)) else None
    else if was.Some? then Some(DeletedAt(was.value)) else None
  }

  /** Appending at most one record. */
  lemma FindAppendSome<K, V>(idOf: V -> K, items: seq<V>, more: seq<V>, id: K)
    requires OneEach(idOf, items) && |more| <= 1 && (more != [] ==> !HasKey(idOf, items, idOf(more[0])))
    ensures OneEach(idOf, items + more)
    ensures Find(idOf, items + more, id) == if more != [] && idOf(more[0]) == id then Some(more[0]) else Find(idOf, items, id)
  {
    if more == [] {
      assert items + more == items;
    } else {
      assert more == [more[0]];
      FindAppend(idOf, items, more[0], id);
    }
  }

  lemma FoundIffKey<K, V>(idOf: V -> K, items: seq<V>, id: K)
    ensures Find(idOf, items, id).Some? <==> HasKey(idOf, items, id)
    ensures forall v | v in items :: HasKey(idOf, items, idOf(v))
  {
  }

  lemma {:induction false} ArrivalsAt(previous: seq<File>, current: seq<File>, path: string)
    requires OneEach(PathOf, current)
    ensures OneEach(ChangePath, Arrivals(previous, current))
    ensures HasKey(ChangePath, Arrivals(previous, current), path) ==> HasKey(PathOf, current, path)
    ensures Find(ChangePath, Arrivals(previous, current), path) ==
      var f := Find(PathOf, current, path); if f.Some? then Deserved(Find(PathOf, previous, path), f) else None
  {
    hide HasKey, Find;
    if current == [] {
      NothingFound(path);
    } else {
      var n := |current| - 1;
      var front, f := current[..n], current[n];
      assert current == front + [f];
      ArrivalsAt(previous, front, path);
      ArrivalsAt(previous, front, f.path);
      FirstOfItsPath(front, f);
      FoundIffKey(PathOf, front, f.path);
      FindAppendSome(ChangePath, Arrivals(previous, front), Arrival(previous, f), path);
      FindAppendSome(PathOf, front, [f], path);
      FoundIffKey(ChangePath, Arrivals(previous, current), path);
      FoundIffKey(PathOf, current, path);
    }
  }

  lemma NothingFound(path: string)
    ensures Find(PathOf, [], path) == None && Find(ChangePath, [], path) == None
    ensures !HasKey(PathOf, [], path) && !HasKey(ChangePath, [], path)
  {
  }

  lemma FirstOfItsPath(front: seq<File>, f: File)
    requires OneEach(PathOf, front + [f])
    ensures !HasKey(PathOf, front, f.path)
  {
    assert forall i | 0 <= i < |front| :: (front + [f])[i] == front[i];
    assert (front + [f])[|front|] == f;
  }

  lemma {:induction false} DeparturesAt(previous: seq<File>, current: seq<File>, path: string)
    requires OneEach(PathOf, previous)
    ensures OneEach(ChangePath, Departures(previous, current))
    ensures HasKey(ChangePath, Departures(previous, current), path) ==> HasKey(PathOf, previous, path)
    ensures Find(ChangePath, Departures(previous, current), path) ==
      if Find(PathOf, current, path).Some? then None else Deserved(Find(PathOf, previous, path), None)
  {
    hide HasKey, Find;
    if previous == [] {
      NothingFound(path);
    } else {
      var n := |previous| - 1;
      var front, f := previous[..n], previous[n];
      assert previous == front + [f];
      DeparturesAt(front, current, path);
      DeparturesAt(front, current, f.path);
      FirstOfItsPath(front, f);
      FindAppendSome(ChangePath, Departures(front, current), Departure(current, f), path);
      FindAppendSome(PathOf, front, [f], path);
      FoundIffKey(ChangePath, Departures(previous, current), path);
      FoundIffKey(PathOf, previous, path);
    }
  }

  lemma {:induction false} FindConcat<K, V>(idOf: V -> K, a: seq<V>, b: seq<V>, id: K)
    requires OneEach(idOf, a) && OneEach(idOf, b) && forall k :: HasKey(idOf, a, k) ==> !HasKey(idOf, b, k)
    ensures OneEach(idOf, a + b)
    ensures Find(idOf, a + b, id) == if Find(idOf, a, id).Some? then Find(idOf, a, id) else Find(idOf, b, id)
    decreases |b|
  {
    if b == [] {
      assert a + b == a;
    } else {
      var n := |b| - 1;
      assert b == b[..n] + [b[n]] && a + b == (a + b[..n]) + [b[n]];
      forall k | HasKey(idOf, a, k) ensures !HasKey(idOf, b[..n], k) {
        assert forall i | 0 <= i < n :: b[..n][i] == b[i];
      }
      FindConcat(idOf, a, b[..n], id);
      assert HasKey(idOf, b, idOf(b[n]));
      assert !HasKey(idOf, a, idOf(b[n]));
      assert forall i | 0 <= i < |a + b[..n]| :: idOf((a + b[..n])[i]) != idOf(b[n]);
      FindAppend(idOf, a + b[..n], b[n], id);
      FindAppend(idOf, b[..n], b[n], id);
    }
  }

  /** Each path gets exactly the change it deserves, and no path gets two. */
  lemma ChangesAt(previous: seq<File>, current: seq<File>, path: string)
    requires OneEach(PathOf, previous) && OneEach(PathOf, current)
    ensures OneEach(ChangePath, Changes(previous, current))
    ensures Find(ChangePath, Changes(previous, current), path)
      == Deserved(Find(PathOf, previous, path), Find(PathOf, current, path))
  {
    hide HasKey, Find, OneEach, Arrivals, Departures;
    var a, b := Arrivals(previous, current), Departures(previous, current);
    ArrivalsAt(previous, current, path);
    DeparturesAt(previous, current, path);
    forall k | HasKey(ChangePath, a, k) ensures !HasKey(ChangePath, b, k) {
      ArrivalsAt(previous, current, k);
      DeparturesAt(previous, current, k);
      FoundIffKey(ChangePath, b, k);
      FoundIffKey(PathOf, current, k);
    }
    FindConcat(ChangePath, a, b, path);
  }

  function HashOf(f: Option<File>): Option<string> { if f.Some? then Some(f.value.record.hash) else None }
  function MtimeOf(f: Option<File>): Option<int> { if f.Some? then Some(f.value.record.mtime) else None }

  /** A change says what became of its path: what was there before and what is there now. */
  predicate Tells(c: Change, was: Option<File>, now: Option<File>) {
    && (c.kind == Created <==> was.None?) && (c.kind == Deleted <==> now.None?)
    && c.oldHash == HashOf(was) && c.newHash == HashOf(now)
    && (c.oldMtime.Some? ==> c.oldMtime == MtimeOf(was)) && (c.oldMtime.None? <==> was.None?)
    && c.newMtime == MtimeOf(now)
    && (now.Some? ==> c.size == now.value.record.size && c.suffix == now.value.record.suffix)
    && (now.None? && was.Some? ==> c.size == was.value.record.size && c.suffix == was.value.record.suffix)
  }

  /** A path is reported exactly when it came, went or has another hash; the report says which, and a loss is less urgent. */
  lemma ChangesTell(previous: seq<File>, current: seq<File>, path: string)
    requires OneEach(PathOf, previous) && OneEach(PathOf, current)
    ensures var c, was, now := Find(ChangePath, Changes(previous, current), path),
                               Find(PathOf, previous, path), Find(PathOf, current, path);
      && (c.Some? <==> HashOf(was) != HashOf(now))
      && (c.Some? ==> c.value.path == path && Tells(c.value, was, now) && Priority(c.value) == if now.None? then 5 else 8)
  {
    hide OneEach, Changes;
    ChangesAt(previous, current, path);
  }

  lemma SameMap(m: map<string, string>, n: map<string, string>)
    requires forall path :: At(m, path) == At(n, path)
    ensures m == n
  {
    forall path ensures path in m <==> path in n { assert At(m, path) == At(n, path); }
    forall path | path in m ensures m[path] == n[path] { assert At(m, path) == At(n, path); }
  }

  /** Replaying a difference turns the old paths and hashes into the new ones. */
  lemma ReplayRebuilds(previous: seq<File>, current: seq<File>)
    requires OneEach(PathOf, previous) && OneEach(PathOf, current)
    ensures Replay(HashesOf(previous), Changes(previous, current)) == HashesOf(current)
  {
    hide Find, OneEach, Changes, Replay, HashesOf;
    var end := Replay(HashesOf(previous), Changes(previous, current));
    forall path ensures At(end, path) == At(HashesOf(current), path) {
      ChangesAt(previous, current, path);
      HashesAt(previous, path);
      HashesAt(current, path);
      ReplayAt(HashesOf(previous), Changes(previous, current), path);
    }
    SameMap(end, HashesOf(current));
  }

  /** A scan reports nothing exactly when no path and no hash has changed. */
  lemma NoChangesIffSame(previous: seq<File>, current: seq<File>)
    requires OneEach(PathOf, previous) && OneEach(PathOf, current)
    ensures Changes(previous, current) == [] <==> HashesOf(previous) == HashesOf(current)
  {
    hide Find, OneEach, Changes, Replay, HashesOf;
    var changes := Changes(previous, current);
    if changes == [] {
      ReplayRebuilds(previous, current);
      assert Replay(HashesOf(previous), []) == HashesOf(previous) by { ReplayNothing(HashesOf(previous)); }
    } else {
      var path := changes[0].path;
      ChangesAt(previous, current, path);
      FoundIffKey(ChangePath, changes, path);
      HashesAt(previous, path);
      HashesAt(current, path);
      assert changes[0] in changes;
      assert At(HashesOf(previous), path) != At(HashesOf(current), path);
    }
  }

  lemma ReplayNothing(m: map<string, string>) ensures Replay(m, []) == m {}

  // --- Scans ------------------------------------------------------------------------------

  datatype Store = Store(signals: seq<Signal>, events: seq<Event>, snapshots: seq<Snapshot>, next: FreshId)

  const EMPTY := Store([], [], [], 0)

  /** The latest snapshot of a root: a stable sort by time, and its last element. */
  function Latest(snapshots: seq<Snapshot>, root: string): Option<Snapshot> {
    if snapshots == [] then None
    else
      var n := |snapshots| - 1;
      var before := Latest(snapshots[..n], root);
      if snapshots[n].root != root then before
      else if before.Some? && before.value.createdAt > snapshots[n].createdAt then before
      else Some(snapshots[n])
  }

  function LatestFiles(s: Store, root: string): seq<File> {
    match Latest(s.snapshots, root) case None => [] case Some(x) => x.files
  }

  /** Events are numbered from `base`, each with its own signal. */
  function EventsFor(root: string, changes: seq<Change>, base: FreshId): (r: seq<Event>)
    ensures |r| == |changes|
  {
    seq(|changes|, i requires 0 <= i < |changes| => Event(base + i, root, changes[i], Some(base + |changes| + i)))
  }

  function SignalsFor(changes: seq<Change>, base: FreshId): (r: seq<Signal>)
    ensures |r| == |changes|
  {
    seq(|changes|, i requires 0 <= i < |changes| => Signal(base + |changes| + i, changes[i].path, Priority(changes[i])))
  }

  function EventIds(events: seq<Event>): seq<FreshId> {
    seq(|events|, i requires 0 <= i < |events| => events[i].id)
  }

  /** The repositories after one scan. */
  function Scanned(s: Store, root: string, files: seq<File>, now: int): Store {
    var changes := Changes(LatestFiles(s, root), files);
    var events := EventsFor(root, changes, s.next);
    Store(
      s.signals + SignalsFor(changes, s.next),
      s.events + events,
      s.snapshots + [Snapshot(s.next + 2 * |changes|, root, files, EventIds(events), now)],
      s.next + 2 * |changes| + 1)
  }

  /** All identifiers in the repositories have been generated. */
  predicate Numbered(s: Store) {
    && OneEach(SignalKey, s.signals) && Below(SignalKey, s.signals, s.next)
    && OneEach(EventKey, s.events) && Below(EventKey, s.events, s.next)
    && OneEach(SnapshotKey, s.snapshots) && Below(SnapshotKey, s.snapshots, s.next)
  }

  class MonitorService {
    const signals: JsonRepository<FreshId, Signal>
    const events: JsonRepository<FreshId, Event>
    const snapshots: JsonRepository<FreshId, Snapshot>
    var next: FreshId

    ghost predicate Valid()
      reads this, signals, events, snapshots
    {
      && signals.idOf == SignalKey && events.idOf == EventKey && snapshots.idOf == SnapshotKey
      && Numbered(Contents())
    }

    ghost function Contents(): Store
      reads this, signals, events, snapshots
    {
      Store(signals.items, events.items, snapshots.items, next)
    }

    constructor ()
      ensures Valid() && Contents() == EMPTY
    {
      signals := new JsonRepository(SignalKey);
      events := new JsonRepository(EventKey);
      snapshots := new JsonRepository(SnapshotKey);
      next := 0;
    }

    method LatestSnapshot(root: string) returns (r: Option<Snapshot>)
      ensures r == Latest(snapshots.items, root)
    {
      r := None;
      var all := snapshots.items;
      assert all[..0] == [];
      for i := 0 to |all|
        invariant r == Latest(all[..i], root)
      {
        assert all[..i + 1][..i] == all[..i];
        if all[i].root == root && (r.None? || r.value.createdAt <= all[i].createdAt) { r := Some(all[i]); }
      }
      assert all[..|all|] == all;
    }

    /** One signal and one event for every change, stored one after the other. */
    method Record(found: seq<Signal>, noted: seq<Event>)
      requires signals.idOf == SignalKey && events.idOf == EventKey && |found| == |noted|
      requires OneEach(SignalKey, signals.items) && Below(SignalKey, signals.items, next + |found|)
      requires OneEach(EventKey, events.items) && Below(EventKey, events.items, next)
      requires forall i | 0 <= i < |found| :: found[i].id == next + |found| + i && noted[i].id == next + i
      modifies signals`items, events`items
      ensures signals.items == old(signals.items) + found && events.items == old(events.items) + noted
      ensures OneEach(SignalKey, signals.items) && Below(SignalKey, signals.items, next + 2 * |found|)
      ensures OneEach(EventKey, events.items) && Below(EventKey, events.items, next + |found|)
    {
      hide Put, OneEach, Below;
      for i := 0 to |found|
        invariant signals.items == old(signals.items) + found[..i] && events.items == old(events.items) + noted[..i]
        invariant OneEach(SignalKey, signals.items) && Below(SignalKey, signals.items, next + |found| + i)
        invariant OneEach(EventKey, events.items) && Below(EventKey, events.items, next + i)
      {
        PutLast(SignalKey, signals.items, found[i], next + |found| + i);
        PutLast(EventKey, events.items, noted[i], next + i);
        signals.Upsert(found[i]);
        events.Upsert(noted[i]);
      }
      assert found[..|found|] == found && noted[..|found|] == noted;
    }

    method Scan(root: string, files: seq<File>, now: int) returns (found: seq<Signal>)
      requires Valid()
      modifies this`next, signals`items, events`items, snapshots`items
      ensures Valid() && Contents() == Scanned(old(Contents()), root, files, now)
      ensures found == SignalsFor(Changes(LatestFiles(old(Contents()), root), files), old(next))
    {
      hide Changes, Latest, Put, OneEach, Below;
      var previous := LatestSnapshot(root);
      var changes := Diff(if previous.Some? then previous.value.files else [], files);
      found := SignalsFor(changes, next);
      var noted := EventsFor(root, changes, next);
      StaysBelow(SignalKey, signals.items, next, next + |changes|);
      Record(found, noted);
      var snapshot := Snapshot(next + 2 * |changes|, root, files, EventIds(noted), now);
      StaysBelow(SnapshotKey, snapshots.items, next, next + 2 * |changes|);
      PutLast(SnapshotKey, snapshots.items, snapshot, next + 2 * |changes|);
      snapshots.Upsert(snapshot);
      StaysBelow(SignalKey, signals.items, next + 2 * |changes|, next + 2 * |changes| + 1);
      StaysBelow(EventKey, events.items, next + |changes|, next + 2 * |changes| + 1);
      next := next + 2 * |changes| + 1;
    }
  }

  lemma StaysBelow<V>(idOf: V -> FreshId, items: seq<V>, n: FreshId, m: FreshId)
    requires Below(idOf, items, n) && n <= m
    ensures Below(idOf, items, m)
  {
  }

  // --- Replaying all scans ----------------------------------------------------------------

  function ChangesIn(events: seq<Event>, root: string): seq<Change> {
    if events == [] then []
    else ChangesIn(events[..|events| - 1], root)
         + if events[|events| - 1].root == root then [events[|events| - 1].change] else []
  }

  /** Replaying every event of a root from nothing gives the paths and hashes of its latest snapshot. */
  ghost predicate Replays(s: Store, root: string) {
    Replay(map[], ChangesIn(s.events, root)) == HashesOf(LatestFiles(s, root))
  }

  /** The root's latest snapshot names no path twice. */
  predicate OnePathEach(s: Store, root: string) { OneEach(PathOf, LatestFiles(s, root)) }

  lemma {:induction false} ReplayConcat(m: map<string, string>, a: seq<Change>, b: seq<Change>)
    ensures Replay(m, a + b) == Replay(Replay(m, a), b)
    decreases |b|
  {
    if b == [] {
      assert a + b == a;
    } else {
      ReplayConcat(m, a, b[..|b| - 1]);
      assert (a + b)[..|a + b| - 1] == a + b[..|b| - 1];
    }
  }

  lemma ChangesAppend(events: seq<Event>, e: Event, root: string)
    ensures ChangesIn(events + [e], root) == ChangesIn(events, root) + if e.root == root then [e.change] else []
  {
    assert (events + [e])[..|events|] == events;
  }

  lemma {:induction false} ChangesOfScan(
      events: seq<Event>, root: string, changes: seq<Change>, base: FreshId, of: string, k: nat)
    requires k <= |changes|
    ensures ChangesIn(events + EventsFor(of, changes, base)[..k], root)
      == ChangesIn(events, root) + if root == of then changes[..k] else []
  {
    hide ChangesIn;
    var noted := EventsFor(of, changes, base);
    if k == 0 {
      assert events + noted[..0] == events;
      assert ChangesIn(events, root) + [] == ChangesIn(events, root);
    } else {
      ChangesOfScan(events, root, changes, base, of, k - 1);
      ChangesAppend(events + noted[..k - 1], noted[k - 1], root);
      assert events + noted[..k] == events + noted[..k - 1] + [noted[k - 1]];
      assert changes[..k] == changes[..k - 1] + [changes[k - 1]];
    }
  }

  /** What one scan adds: for each change, in order, an event of this root and its signal; and a snapshot naming the events. */
  lemma ScanRecords(s: Store, root: string, files: seq<File>, now: int)
    ensures var after, changes := Scanned(s, root, files, now), Changes(LatestFiles(s, root), files);
      && s.signals <= after.signals && s.events <= after.events && s.snapshots <= after.snapshots
      && |after.signals| == |s.signals| + |changes| && |after.events| == |s.events| + |changes|
      && |after.snapshots| == |s.snapshots| + 1
      && (forall i | 0 <= i < |changes| ::
            var e, g := after.events[|s.events| + i], after.signals[|s.signals| + i];
            e.root == root && e.change == changes[i] && e.signal == Some(g.id)
            && g.source == changes[i].path && g.priority == Priority(changes[i]))
      && var x := after.snapshots[|s.snapshots|];
         && x.root == root && x.files == files && x.createdAt == now && |x.events| == |changes|
         && forall i | 0 <= i < |changes| :: x.events[i] == after.events[|s.events| + i].id
  {
    hide Changes, Latest;
  }

  /** The clock has not gone back behind the latest snapshot of this root. */
  predicate InTime(s: Store, root: string, now: int) {
    match Latest(s.snapshots, root) case None => true case Some(x) => x.createdAt <= now
  }

  lemma LatestAfter(s: Store, root: string, files: seq<File>, now: int, other: string)
    ensures var after := Scanned(s, root, files, now);
      LatestFiles(after, other) == if other == root && InTime(s, root, now) then files else LatestFiles(s, other)
  {
    hide Changes, EventsFor, SignalsFor;
    var after := Scanned(s, root, files, now);
    assert after.snapshots[..|s.snapshots|] == s.snapshots;
  }

  /** A scan keeps the history replayable exactly when its clock is in time or it has seen nothing new. */
  lemma ScanReplaysIff(s: Store, root: string, files: seq<File>, now: int)
    requires OnePathEach(s, root) && OneEach(PathOf, files) && Replays(s, root)
    ensures Replays(Scanned(s, root, files, now), root)
      <==> InTime(s, root, now) || HashesOf(files) == HashesOf(LatestFiles(s, root))
  {
    hide Changes, Replay, HashesOf, Latest;
    var changes := Changes(LatestFiles(s, root), files);
    LatestAfter(s, root, files, now, root);
    ChangesOfScan(s.events, root, changes, s.next, root, |changes|);
    assert EventsFor(root, changes, s.next)[..|changes|] == EventsFor(root, changes, s.next);
    assert changes[..|changes|] == changes;
    ReplayConcat(map[], ChangesIn(s.events, root), changes);
    ReplayRebuilds(LatestFiles(s, root), files);
  }

  /** A scan of one root leaves the history of every other root alone. */
  lemma OtherRootsUntouched(s: Store, root: string, files: seq<File>, now: int, other: string)
    requires other != root
    ensures var after := Scanned(s, root, files, now);
      ChangesIn(after.events, other) == ChangesIn(s.events, other) && LatestFiles(after, other) == LatestFiles(s, other)
  {
    hide Changes;
    var changes := Changes(LatestFiles(s, root), files);
    LatestAfter(s, root, files, now, other);
    ChangesOfScan(s.events, other, changes, s.next, root, |changes|);
    assert EventsFor(root, changes, s.next)[..|changes|] == EventsFor(root, changes, s.next);
    assert ChangesIn(s.events, other) + [] == ChangesIn(s.events, other);
  }

  datatype Visit = Visit(root: string, files: seq<File>, now: int)

  function ScannedAll(s: Store, visits: seq<Visit>): Store {
    if visits == [] then s
    else
      var n := |visits| - 1;
      Scanned(ScannedAll(s, visits[..n]), visits[n].root, visits[n].files, visits[n].now)
  }

  /** The visits of this root come in the order of their times; other roots may have clocks of their own. */
  predicate InOrder(visits: seq<Visit>, root: string) {
    && (forall i, j | 0 <= i < j < |visits| && visits[i].root == root && visits[j].root == root ::
          visits[i].now <= visits[j].now)
    && (forall v | v in visits && v.root == root :: OneEach(PathOf, v.files))
  }

  /** The latest snapshot of the root is as old as one of these visits. */
  predicate Visited(s: Store, visits: seq<Visit>, root: string) {
    var x := Latest(s.snapshots, root);
    x.Some? ==> exists i | 0 <= i < |visits| :: visits[i].root == root && visits[i].now == x.value.createdAt
  }

  /**
   After any scans of any roots, a root whose own scans come in the order of their times has events
   that rebuild its latest snapshot.
   */
  lemma {:induction false} HistoryReplays(visits: seq<Visit>, root: string)
    requires InOrder(visits, root)
    ensures var s := ScannedAll(EMPTY, visits);
      Replays(s, root) && OnePathEach(s, root) && Visited(s, visits, root)
  {
    hide Replays, OnePathEach, Visited, InOrder, Scanned;
    if visits == [] {
      NothingReplays(root);
    } else {
      var n := |visits| - 1;
      var v := visits[n];
      var s := ScannedAll(EMPTY, visits[..n]);
      assert visits == visits[..n] + [v];
      FrontInOrder(visits[..n], v, root);
      HistoryReplays(visits[..n], root);
      VisitReplays(s, visits[..n], v, root);
    }
  }

  lemma FrontInOrder(visits: seq<Visit>, v: Visit, root: string)
    requires InOrder(visits + [v], root)
    ensures InOrder(visits, root)
  {
    assert forall i | 0 <= i < |visits| :: (visits + [v])[i] == visits[i];
    assert forall u | u in visits :: u in visits + [v];
  }

  /** One more visit, in time for this root if it is this root's. */
  lemma VisitReplays(s: Store, visits: seq<Visit>, v: Visit, root: string)
    requires Replays(s, root) && OnePathEach(s, root) && Visited(s, visits, root) && InOrder(visits + [v], root)
    ensures var t := Scanned(s, v.root, v.files, v.now);
      Replays(t, root) && OnePathEach(t, root) && Visited(t, visits + [v], root)
  {
    hide Changes, HashesOf, Latest, EventsFor, SignalsFor, OneEach;
    var t, all := Scanned(s, v.root, v.files, v.now), visits + [v];
    assert all[|visits|] == v && v in all;
    assert forall i | 0 <= i < |visits| :: all[i] == visits[i];
    LatestAfter(s, v.root, v.files, v.now, root);
    LatestTime(s, v.root, v.files, v.now, root);
    if v.root == root {
      assert InTime(s, root, v.now);
      ScanReplaysIff(s, root, v.files, v.now);
    } else {
      OtherRootsUntouched(s, v.root, v.files, v.now, root);
    }
  }

  lemma LatestTime(s: Store, root: string, files: seq<File>, now: int, other: string)
    ensures var before, after := Latest(s.snapshots, other), Latest(Scanned(s, root, files, now).snapshots, other);
      if other == root && InTime(s, root, now) then after.Some? && after.value.createdAt == now else after == before
  {
    hide Changes, EventsFor, SignalsFor;
    assert Scanned(s, root, files, now).snapshots[..|s.snapshots|] == s.snapshots;
  }

  lemma NothingReplays(root: string)
    ensures Replays(EMPTY, root) && OnePathEach(EMPTY, root) && Visited(EMPTY, [], root)
  {
  }

  function OneFile(hash: string): seq<File> { [File("a", FileRecord(hash, 0, 1, ".md"))] }

  /** A clock that goes back breaks it: the second of these two scans never becomes the latest snapshot. */
  lemma ClockGoingBack()
    ensures !Replays(Scanned(Scanned(EMPTY, "r", OneFile("old"), 2), "r", OneFile("new"), 1), "r")
  {
    hide Replays, Changes;
    var s := Scanned(EMPTY, "r", OneFile("old"), 2);
    NothingReplays("r");
    ScanReplaysIff(EMPTY, "r", OneFile("old"), 2);
    LatestAfter(EMPTY, "r", OneFile("old"), 2, "r");
    ScanReplaysIff(s, "r", OneFile("new"), 1);
    assert HashesOf(OneFile("old"))["a"] == "old" && HashesOf(OneFile("new"))["a"] == "new";
  }
}
