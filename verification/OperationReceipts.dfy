/**
 Operation receipts guarded by per-key locks, for any number of stores and callers.

 A lock belongs to a store. `begin` takes it without waiting and hands it to the caller only
 together with a running receipt; a receipt that is already final is handed out without it,
 and a caller who then completes it anyway does so unprotected.
 */
module OperationReceipts {
  import opened Sequences

  type Key = string
  type StoreId = nat
  type CallerId = nat

  datatype Status = Planned | Running | Succeeded | Insufficient | Degraded | Failed | Interrupted | Skipped

  datatype Receipt = Receipt(
    key: Key, operation: string, inputHash: string, status: Status, output: string, startedAt: int, completedAt: Option<int>)

  function Started(key: Key, operation: string, inputHash: string, now: int): Receipt {
    Receipt(key, operation, inputHash, Running, "", now, None)
  }

  function Closed(r: Receipt, status: Status, output: string, now: int): Receipt {
    r.(status := status, output := output, completedAt := Some(now))
  }

  // --- One store, one caller at a time ----------------------------------------------------

  /** The receipt files and the lock files that all stores of a workspace share. */
  class Workspace {
    var files: map<Key, Receipt>
    var locked: set<Key>

    constructor ()
      ensures files == map[] && locked == {}
    {
      files, locked := map[], {};
    }
  }

  /** What the work behind a command comes to. */
  datatype Work = Done(status: Status, output: string) | Fails(error: string)

  class OperationReceiptStore {
    const disk: Workspace
    /** The keys of `_locks`: the lock handles this store has open. */
    var held: set<Key>

    constructor (disk: Workspace)
      ensures this.disk == disk && held == {}
    {
      this.disk, held := disk, {};
    }

    ghost predicate Valid()
      reads this, disk
    {
      held <= disk.locked && forall key | key in disk.files :: disk.files[key].key == key
    }

    /** Opens a new handle on the lock file; a handle that cannot lock is closed again. */
    method Acquire(key: Key) returns (ok: bool)
      requires Valid()
      modifies this`held, disk`locked
      ensures Valid() && ok == (key !in old(disk.locked))
      ensures disk.locked == old(disk.locked) + {key}
      ensures held == if ok then old(held) + {key} else old(held)
    {
      ok := key !in disk.locked;
      if ok {
        disk.locked := disk.locked + {key};
        held := held + {key};
      }
    }

    /** Gives back the lock this store holds on the key, if it holds one. */
    method Release(key: Key)
      requires Valid()
      modifies this`held, disk`locked
      ensures Valid() && held == old(held) - {key}
      ensures disk.locked == if key in old(held) then old(disk.locked) - {key} else old(disk.locked)
    {
      if key in held {
        held := held - {key};
        disk.locked := disk.locked - {key};
      }
    }

    /**
     Comes back with the lock exactly when the receipt is running, and otherwise leaves every lock as it was.
     `writable` says whether the disk takes a new receipt.
     */
    method Begin(key: Key, operation: string, inputHash: string, now: int, writable: bool) returns (r: Result<Receipt>)
      requires Valid()
      modifies this`held, disk
      ensures Valid()
      ensures key in old(disk.locked) || (key !in old(disk.files) && !writable) ==> r.Raised?
      ensures key !in old(disk.locked) && key in old(disk.files) ==>
        r == if old(disk.files)[key].inputHash == inputHash then Ok(old(disk.files)[key]) else Raised
      ensures key !in old(disk.locked) && key !in old(disk.files) && writable ==>
        r == Ok(Receipt(key, operation, inputHash, Running, "", now, None))
      ensures disk.files == if r.Ok? then old(disk.files)[key := r.value] else old(disk.files)
      ensures var mine := r.Ok? && r.value.status == Running;
        && held == (if mine then old(held) + {key} else old(held))
        && disk.locked == if mine then old(disk.locked) + {key} else old(disk.locked)
    {
      var ok := Acquire(key);
      if !ok { return Raised; }
      if key in disk.files {
        var existing := disk.files[key];
        if existing.inputHash != inputHash {
          Release(key);
          return Raised;
        }
        if existing.status != Running { Release(key); }
        assert disk.files == disk.files[key := existing];
        return Ok(existing);
      }
      if !writable {
        Release(key);
        return Raised;
      }
      var receipt := Started(key, operation, inputHash, now);
      disk.files := disk.files[key := receipt];
      return Ok(receipt);
    }

    /** Gives the key's lock back whether or not the disk takes the closed receipt. */
    method Complete(receipt: Receipt, status: Status, output: string, now: int, writable: bool) returns (r: Result<Receipt>)
      requires Valid()
      modifies this`held, disk
      ensures Valid() && (r.Ok? <==> writable)
      ensures r.Ok? ==>
        r.value == Receipt(receipt.key, receipt.operation, receipt.inputHash, status, output, receipt.startedAt, Some(now))
      ensures disk.files == if r.Ok? then old(disk.files)[receipt.key := r.value] else old(disk.files)
      ensures held == old(held) - {receipt.key}
      ensures disk.locked == if receipt.key in old(held) then old(disk.locked) - {receipt.key} else old(disk.locked)
    {
      if writable {
        r := Ok(Closed(receipt, status, output, now));
        disk.files := disk.files[receipt.key := r.value];
      } else {
        r := Raised;
      }
      Release(receipt.key);
    }

    method Interrupt(receipt: Receipt, message: string, now: int, writable: bool) returns (r: Result<Receipt>)
      requires Valid()
      modifies this`held, disk
      ensures Valid() && (r.Ok? <==> writable)
      ensures r.Ok? ==>
        r.value ==
          Receipt(receipt.key, receipt.operation, receipt.inputHash, Interrupted, message, receipt.startedAt, Some(now))
      ensures disk.files == if r.Ok? then old(disk.files)[receipt.key := r.value] else old(disk.files)
      ensures held == old(held) - {receipt.key}
      ensures disk.locked == if receipt.key in old(held) then old(disk.locked) - {receipt.key} else old(disk.locked)
    {
      r := Complete(receipt, Interrupted, message, now, writable);
    }

    /**
     One command on a disk that takes every receipt: an answer on file is replayed, and otherwise the work is
     done and its outcome put on file. Every lock is left as it was.
     */
    method RunStreamed(key: Key, operation: string, inputHash: string, work: Work, now: int, later: int)
      returns (r: Result<Receipt>)
      requires Valid()
      modifies this`held, disk
      ensures Valid() && held == old(held) && disk.locked == old(disk.locked)
      ensures var files := old(disk.files);
        if key in old(disk.locked) || (key in files && files[key].inputHash != inputHash) then
          r.Raised? && disk.files == files
        else if key in files && (files[key].status == Succeeded || files[key].status == Insufficient) then
          r == Ok(files[key]) && disk.files == files
        else
          var (named, began) := if key in files then (files[key].operation, files[key].startedAt) else (operation, now);
          var (status, output) := match work case Done(status, output) => (status, output) case Fails(error) => (Failed, error);
          && disk.files == files[key := Receipt(key, named, inputHash, status, output, began, Some(later))]
          && r == if work.Done? then Ok(disk.files[key]) else Raised
    {
      var begun := Begin(key, operation, inputHash, now, true);
      if begun.Raised? { return Raised; }
      var receipt := begun.value;
      if Answers(receipt.status) {
        assert disk.files == old(disk.files);
        return begun;
      }
      match work {
        case Done(status, output) => r := Complete(receipt, status, output, later, true);
        case Fails(error) =>
          var failed := Complete(receipt, Failed, error, later, true);
          r := Raised;
      }
    }

    /** A retry of a command that succeeded reads back what the first run stored, whatever its own work would have been. */
    method RunTwice(key: Key, operation: string, inputHash: string, first: Work, second: Work, now: int)
      returns (r: Result<Receipt>, again: Result<Receipt>)
      requires Valid() && first.Done? && (first.status == Succeeded || first.status == Insufficient)
      modifies this`held, disk
      ensures Valid() && (r.Ok? ==> again == r)
      ensures r.Ok? && (key !in old(disk.files) || old(disk.files)[key].status !in {Succeeded, Insufficient}) ==>
        again.value.status == first.status && again.value.output == first.output
    {
      r := RunStreamed(key, operation, inputHash, first, now, now);
      again := RunStreamed(key, operation, inputHash, second, now, now);
    }
  }

  // --- Many stores, many callers ----------------------------------------------------------

  /**
   Where a caller is: inside `begin` (`Acquired` to `Dropping`), with a receipt in hand (`Holding` with
   the lock, `Loose` without), inside its first `complete`, reporting before its return (`Closing`),
   inside a second `complete`, or over. An error or an interrupt while reporting leads to that second
   completion, when the lock is already given back.
   */
  datatype Stage =
    | Asking
    | Acquired
    | Creating
    | Refusing
    | Dropping(receipt: Receipt)
    | Holding(receipt: Receipt)
    | Loose(receipt: Receipt)
    | Releasing(receipt: Receipt, reports: bool)
    | Closing(receipt: Receipt)
    | Leaving
    | Ended

  /** `strayed` records that the caller has completed without owning the lock. */
  datatype Caller = Caller(store: StoreId, key: Key, inputHash: string, stage: Stage, strayed: bool)

  /** A lock is a handle that one caller's `begin` opened and its store keeps. */
  datatype State = State(files: map<Key, Receipt>, locks: map<Key, CallerId>, callers: map<CallerId, Caller>)

  const START := State(map[], map[], map[])

  datatype Move =
    | Ask(id: CallerId, store: StoreId, key: Key, inputHash: string)
    | Acquire(id: CallerId)
    | Look(id: CallerId)
    | Create(id: CallerId, operation: string, now: int)
    | CreateFails(id: CallerId)
    | Complete(id: CallerId, status: Status, output: string, now: int, writable: bool)
    | Release(id: CallerId)
    | Return(id: CallerId)
    | Crash(store: StoreId)

  /** The statuses a command line run ends with when its work is done. */
  predicate Answers(status: Status) { status == Succeeded || status == Insufficient }

  /** `complete` is only ever called with a final status, and the second time with a failure. */
  predicate Can(s: State, move: Move) {
    match move
    case Ask(id, _, _, _) => id !in s.callers
    case Acquire(id) => id in s.callers && s.callers[id].stage.Asking?
    case Look(id) => id in s.callers && s.callers[id].stage.Acquired?
    case Create(id, _, _) => id in s.callers && s.callers[id].stage.Creating?
    case CreateFails(id) => id in s.callers && s.callers[id].stage.Creating?
    case Complete(id, status, _, _, _) =>
      && id in s.callers && status != Running
      && (s.callers[id].stage.Holding? || s.callers[id].stage.Loose? || (s.callers[id].stage.Closing? && !Answers(status)))
    case Release(id) =>
      id in s.callers && (s.callers[id].stage.Refusing? || s.callers[id].stage.Dropping? || s.callers[id].stage.Releasing?
                          || s.callers[id].stage.Leaving?)
    case Return(id) => id in s.callers && (s.callers[id].stage.Loose? || s.callers[id].stage.Closing?)
    case Crash(_) => true
  }

  function To(s: State, id: CallerId, stage: Stage): State
    requires id in s.callers
  {
    s.(callers := s.callers[id := s.callers[id].(stage := stage)])
  }

  predicate Owns(s: State, id: CallerId) {
    id in s.callers && s.callers[id].key in s.locks && s.locks[s.callers[id].key] == id
  }

  /** A store drops the handle it has open on a key, whichever caller's `begin` opened it. */
  function Unlocked(s: State, store: StoreId, key: Key): map<Key, CallerId> {
    if key in s.locks && s.locks[key] in s.callers && s.callers[s.locks[key]].store == store then s.locks - {key} else s.locks
  }

  function AfterRelease(stage: Stage): Stage {
    match stage
    case Dropping(r) => Loose(r)
    case Releasing(r, reports) => if reports then Closing(r) else Ended
    case _ => Ended
  }

  function Step(s: State, move: Move): State
    requires Can(s, move)
  {
    match move
    case Ask(id, store, key, inputHash) => s.(callers := s.callers[id := Caller(store, key, inputHash, Asking, false)])
    case Acquire(id) =>
      var c := s.callers[id];
      if c.key in s.locks then To(s, id, Ended) else To(s, id, Acquired).(locks := s.locks[c.key := id])
    case Look(id) =>
      var c := s.callers[id];
      if c.key !in s.files then To(s, id, Creating)
      else
        var found := s.files[c.key];
        To(s, id, if found.inputHash != c.inputHash then Refusing
                  else if found.status != Running then Dropping(found) else Holding(found))
    case Create(id, operation, now) =>
      var c := s.callers[id];
      var r := Started(c.key, operation, c.inputHash, now);
      To(s, id, Holding(r)).(files := s.files[c.key := r])
    case CreateFails(id) => To(s, id, Refusing)
    case Complete(id, status, output, now, writable) =>
      var c := s.callers[id];
      var r := c.stage.receipt;
      var next := c.(stage := if c.stage.Closing? then Leaving else Releasing(r, Answers(status)),
                     strayed := c.strayed || !Owns(s, id));
      s.(callers := s.callers[id := next],
         files := if writable then s.files[c.key := Closed(r, status, output, now)] else s.files)
    case Release(id) =>
      var c := s.callers[id];
      To(s, id, AfterRelease(c.stage)).(locks := Unlocked(s, c.store, c.key))
    case Return(id) => To(s, id, Ended)
    case Crash(store) =>
      s.(callers := map id | id in s.callers ::
                      if s.callers[id].store == store then s.callers[id].(stage := Ended) else s.callers[id],
         locks := map key | key in s.locks && s.locks[key] in s.callers && s.callers[s.locks[key]].store != store
                      :: s.locks[key])
  }

  predicate Runs(s: State, moves: seq<Move>)
    decreases |moves|
  {
    moves == [] || (Can(s, moves[0]) && Runs(Step(s, moves[0]), moves[1..]))
  }

  function Final(s: State, moves: seq<Move>): State
    requires Runs(s, moves)
    decreases |moves|
  {
    if moves == [] then s else Final(Step(s, moves[0]), moves[1..])
  }

  // --- The invariant ----------------------------------------------------------------------

  /** The key has a receipt with a final status. */
  predicate Settled(s: State, key: Key) { key in s.files && s.files[key].status != Running }

  /** Between taking the lock and giving it back. */
  predicate Inside(stage: Stage) {
    stage.Acquired? || stage.Creating? || stage.Refusing? || stage.Dropping? || stage.Holding? || stage.Releasing?
  }

  predicate OnFile(s: State, c: Caller, r: Receipt) {
    c.key in s.files && s.files[c.key].inputHash == r.inputHash == c.inputHash
  }

  /** What a caller's stage says about the file of its key. */
  predicate Truthful(s: State, c: Caller) {
    match c.stage
    case Creating => c.key !in s.files
    case Holding(r) => OnFile(s, c, r) && r.status == Running && (s.files[c.key].status == Running ==> s.files[c.key] == r)
    case Dropping(r) => OnFile(s, c, r) && Settled(s, c.key) && r.status != Running
    case Loose(r) => OnFile(s, c, r) && Settled(s, c.key) && r.status != Running
    case Releasing(r, _) => OnFile(s, c, r)
    case Closing(r) => OnFile(s, c, r)
    case Leaving => c.strayed
    case _ => true
  }

  predicate AllTruthful(s: State) {
    forall id | id in s.callers :: Truthful(s, s.callers[id]) && (s.callers[id].strayed ==> s.callers[id].key in s.files)
  }

  /** Every lock has an owner inside, who will give it back or crash with it. */
  predicate LocksAreOwned(s: State) {
    forall key | key in s.locks ::
      Owns(s, s.locks[key]) && s.callers[s.locks[key]].key == key && Inside(s.callers[s.locks[key]].stage)
  }

  /** No caller of this store has completed this key without the lock. */
  predicate NobodyStrayed(s: State, store: StoreId, key: Key) {
    forall id | id in s.callers && s.callers[id].store == store && s.callers[id].key == key :: !s.callers[id].strayed
  }

  /** Where nobody has strayed, whoever is inside owns the lock. */
  predicate InsidersOwn(s: State) {
    forall id | id in s.callers && Inside(s.callers[id].stage) && NobodyStrayed(s, s.callers[id].store, s.callers[id].key) ::
      Owns(s, id)
  }

  predicate Inv(s: State) { AllTruthful(s) && LocksAreOwned(s) && InsidersOwn(s) }

  lemma StartIsSound()
    ensures Inv(START)
  {
  }

  /** A settled key stays settled, and a receipt keeps its input hash. */
  lemma FilesStay(s: State, move: Move)
    requires AllTruthful(s) && Can(s, move)
    ensures forall key | key in s.files ::
      && key in Step(s, move).files && Step(s, move).files[key].inputHash == s.files[key].inputHash
      && (Settled(s, key) ==> Settled(Step(s, move), key))
  {
    if move.Complete? || move.Create? { assert Truthful(s, s.callers[move.id]); }
  }

  function Mover(move: Move): Option<CallerId> { if move.Crash? then None else Some(move.id) }

  /** A caller keeps its place and its record of straying; only its own moves and a crash change its stage. */
  lemma CallersStay(s: State, move: Move, id: CallerId)
    requires Can(s, move) && id in s.callers
    ensures var c, d := s.callers[id], Step(s, move).callers[id];
      && id in Step(s, move).callers
      && d.store == c.store && d.key == c.key && d.inputHash == c.inputHash && (c.strayed ==> d.strayed)
      && (Mover(move) != Some(id) ==>
            d == c.(stage := d.stage) && (d.stage == c.stage || (move == Crash(c.store) && d.stage.Ended?)))
  {
  }

  lemma StraysStay(s: State, move: Move, store: StoreId, key: Key)
    requires Can(s, move) && NobodyStrayed(Step(s, move), store, key)
    ensures NobodyStrayed(s, store, key)
  {
    hide Step, Can;
    forall id | id in s.callers && s.callers[id].store == store && s.callers[id].key == key
      ensures !s.callers[id].strayed
    {
      CallersStay(s, move, id);
    }
  }

  /** Without a receipt nobody has strayed, so whoever is inside owns the lock and is alone. */
  lemma AloneBeforeTheReceipt(s: State, i: CallerId, j: CallerId)
    requires Inv(s) && i in s.callers && j in s.callers && s.callers[i].key == s.callers[j].key
    requires s.callers[i].key !in s.files && Inside(s.callers[i].stage) && Inside(s.callers[j].stage)
    ensures i == j
  {
    assert NobodyStrayed(s, s.callers[i].store, s.callers[i].key);
    assert NobodyStrayed(s, s.callers[j].store, s.callers[j].key);
    assert Owns(s, i) && Owns(s, j);
  }

  lemma TruthStaysFor(s: State, move: Move, id: CallerId)
    requires Inv(s) && Can(s, move) && id in s.callers
    ensures Truthful(Step(s, move), Step(s, move).callers[id])
  {
    if Mover(move) == Some(id) {
      OwnMoveIsTruthful(s, move, id);
    } else {
      OthersMoveIsTruthful(s, move, id);
    }
  }

  lemma OwnMoveIsTruthful(s: State, move: Move, id: CallerId)
    requires Inv(s) && Can(s, move) && id in s.callers && Mover(move) == Some(id)
    ensures Truthful(Step(s, move), Step(s, move).callers[id])
  {
    hide LocksAreOwned, InsidersOwn;
    assert Truthful(s, s.callers[id]);
    if s.callers[id].stage.Closing? { ClosingDoesNotOwn(s, id); }
  }

  lemma OthersMoveIsTruthful(s: State, move: Move, id: CallerId)
    requires Inv(s) && Can(s, move) && id in s.callers && Mover(move) != Some(id)
    ensures Truthful(Step(s, move), Step(s, move).callers[id])
  {
    hide LocksAreOwned, InsidersOwn;
    assert Truthful(s, s.callers[id]);
    FilesStay(s, move);
    CallersStay(s, move, id);
    if move.Create? {
      assert Truthful(s, s.callers[move.id]);
      if s.callers[id].stage.Creating? && s.callers[id].key == s.callers[move.id].key {
        AloneBeforeTheReceipt(s, id, move.id);
      }
    } else if move.Complete? {
      assert Truthful(s, s.callers[move.id]);
    }
  }

  lemma ClosingDoesNotOwn(s: State, id: CallerId)
    requires Inv(s) && id in s.callers && !Inside(s.callers[id].stage)
    ensures !Owns(s, id)
  {
  }

  lemma TruthStays(s: State, move: Move)
    requires Inv(s) && Can(s, move)
    ensures AllTruthful(Step(s, move))
  {
    hide LocksAreOwned, InsidersOwn, Truthful;
    var t := Step(s, move);
    FilesStay(s, move);
    forall id | id in t.callers
      ensures Truthful(t, t.callers[id]) && (t.callers[id].strayed ==> t.callers[id].key in t.files)
    {
      if id in s.callers {
        TruthStaysFor(s, move, id);
        CallersStay(s, move, id);
        if t.callers[id].strayed { StrayHasFile(s, move, id); }
      } else {
        NewIsTruthful(s, move, id);
      }
    }
  }

  lemma StrayHasFile(s: State, move: Move, id: CallerId)
    requires AllTruthful(s) && Can(s, move) && id in s.callers && Step(s, move).callers[id].strayed
    ensures Step(s, move).callers[id].key in Step(s, move).files
  {
    assert Truthful(s, s.callers[id]);
  }

  lemma NewIsTruthful(s: State, move: Move, id: CallerId)
    requires Can(s, move) && id in Step(s, move).callers && id !in s.callers
    ensures Truthful(Step(s, move), Step(s, move).callers[id]) && !Step(s, move).callers[id].strayed
  {
  }

  lemma LocksStayOwned(s: State, move: Move)
    requires LocksAreOwned(s) && Can(s, move)
    ensures LocksAreOwned(Step(s, move))
  {
    var t := Step(s, move);
    forall key | key in t.locks
      ensures Owns(t, t.locks[key]) && t.callers[t.locks[key]].key == key && Inside(t.callers[t.locks[key]].stage)
    {
      if key in s.locks && s.locks[key] == t.locks[key] { CallersStay(s, move, s.locks[key]); }
    }
  }

  /** Where nobody has strayed, giving a lock back gives back one's own. */
  lemma ReleasesItsOwn(s: State, j: CallerId, id: CallerId)
    requires Inv(s) && Can(s, Release(j)) && id in s.callers && Owns(s, id)
    requires s.callers[j].store == s.callers[id].store && s.callers[j].key == s.callers[id].key
    requires NobodyStrayed(s, s.callers[id].store, s.callers[id].key)
    ensures j == id
  {
    assert Truthful(s, s.callers[j]);
    assert Inside(s.callers[j].stage);
    assert NobodyStrayed(s, s.callers[j].store, s.callers[j].key);
    assert Owns(s, j);
  }

  lemma InsiderStays(s: State, move: Move, id: CallerId)
    requires Inv(s) && Can(s, move) && id in s.callers
    requires var t := Step(s, move); Inside(t.callers[id].stage) && NobodyStrayed(t, t.callers[id].store, t.callers[id].key)
    ensures Owns(Step(s, move), id)
  {
    var c := s.callers[id];
    CallersStay(s, move, id);
    StraysStay(s, move, c.store, c.key);
    assert Inside(c.stage) ==> Owns(s, id);
    match move
    case Acquire(j) =>
      if j != id && s.callers[j].key == c.key { assert Owns(s, id); }
    case Release(j) =>
      if j != id && s.callers[j].store == c.store && s.callers[j].key == c.key { ReleasesItsOwn(s, j, id); }
    case Complete(j, _, _, _, _) =>
      assert j == id ==> Owns(s, id);
    case _ =>
  }

  lemma InsidersStillOwn(s: State, move: Move)
    requires Inv(s) && Can(s, move)
    ensures InsidersOwn(Step(s, move))
  {
    var t := Step(s, move);
    forall id | id in t.callers && Inside(t.callers[id].stage) && NobodyStrayed(t, t.callers[id].store, t.callers[id].key)
      ensures Owns(t, id)
    {
      if id in s.callers { InsiderStays(s, move, id); }
    }
  }

  lemma StepKeepsInv(s: State, move: Move)
    requires Inv(s) && Can(s, move)
    ensures Inv(Step(s, move))
  {
    hide Step, Can, AllTruthful, LocksAreOwned, InsidersOwn;
    LocksStayOwned(s, move);
    InsidersStillOwn(s, move);
    TruthStays(s, move);
  }

  lemma {:induction false} RunKeepsInv(s: State, moves: seq<Move>)
    requires Inv(s) && Runs(s, moves)
    ensures Inv(Final(s, moves))
    ensures forall key | key in s.files ::
      key in Final(s, moves).files && Final(s, moves).files[key].inputHash == s.files[key].inputHash
    decreases |moves|
  {
    hide Step, Can, LocksAreOwned, InsidersOwn, Settled, AllTruthful;
    if moves != [] {
      StepKeepsInv(s, moves[0]);
      FilesStay(s, moves[0]);
      RunKeepsInv(Step(s, moves[0]), moves[1..]);
    }
  }

  // --- The discipline ---------------------------------------------------------------------

  /**
   In every interleaving: a running receipt is in hand with its input hash on file, and it is the
   receipt on file exactly while the file is still running. Where nobody of the caller's store has
   completed the key without the lock, it comes with the lock and to nobody else. A
   receipt handed out without the lock is final.
   */
  lemma HandedOutWithItsLock(moves: seq<Move>, id: CallerId)
    requires Runs(START, moves) && id in Final(START, moves).callers
    ensures var s := Final(START, moves);
      var c := s.callers[id];
      && (c.stage.Holding? ==>
            && c.stage.receipt.status == Running && OnFile(s, c, c.stage.receipt)
            && (s.files[c.key] == c.stage.receipt <==> s.files[c.key].status == Running)
            && (NobodyStrayed(s, c.store, c.key) ==> Owns(s, id)))
      && (c.stage.Loose? ==> c.stage.receipt.status != Running && OnFile(s, c, c.stage.receipt) && Settled(s, c.key))
  {
    hide Runs, Final;
    StartIsSound();
    RunKeepsInv(START, moves);
    assert Truthful(Final(START, moves), Final(START, moves).callers[id]);
  }

  /** At most one holder of a key has the lock; with unstrayed stores, at most one holder there is. */
  lemma OneHolder(moves: seq<Move>, i: CallerId, j: CallerId)
    requires Runs(START, moves) && i in Final(START, moves).callers && j in Final(START, moves).callers
    requires var s := Final(START, moves);
      && s.callers[i].key == s.callers[j].key && s.callers[i].stage.Holding? && s.callers[j].stage.Holding?
      && NobodyStrayed(s, s.callers[i].store, s.callers[i].key) && NobodyStrayed(s, s.callers[j].store, s.callers[j].key)
    ensures i == j
  {
    HandedOutWithItsLock(moves, i);
    HandedOutWithItsLock(moves, j);
  }

  /** Another caller of the same store and key gives a lock back: the store drops the handle it has, whoever opened it. */
  predicate Disturbs(s: State, move: Move, id: CallerId)
    requires Can(s, move) && id in s.callers
  {
    && move.Release? && move.id != id
    && s.callers[move.id].store == s.callers[id].store && s.callers[move.id].key == s.callers[id].key
  }

  /**
   What another caller's move does to a holder, exactly: its lock goes when a caller of its own store
   gives the key's lock back, and its receipt leaves the file when a caller of the key
   writes a completion. The first needs somebody of the store to have strayed; the second a
   caller that has already given its lock back, or a stray.
   */
  lemma OthersLeaveTheHolder(s: State, move: Move, id: CallerId)
    requires Inv(s) && Can(s, move) && id in s.callers && s.callers[id].stage.Holding?
    requires Mover(move) != Some(id) && (move.Crash? ==> move.store != s.callers[id].store)
    requires Owns(s, id) && s.files[s.callers[id].key].status == Running
    ensures var t, c := Step(s, move), s.callers[id];
      && id in t.callers && t.callers[id] == c && c.key in t.files
      && (Owns(t, id) <==> !Disturbs(s, move, id))
      && (Disturbs(s, move, id) ==> !NobodyStrayed(s, c.store, c.key))
      && (t.files[c.key] == c.stage.receipt <==> !(move.Complete? && move.writable && s.callers[move.id].key == c.key))
      && (t.files[c.key] != c.stage.receipt ==>
            s.callers[move.id].stage.Closing? || !NobodyStrayed(s, s.callers[move.id].store, c.key))
  {
    var c := s.callers[id];
    assert Truthful(s, c);
    CallersStay(s, move, id);
    if Disturbs(s, move, id) && NobodyStrayed(s, c.store, c.key) {
      ReleasesItsOwn(s, move.id, id);
    }
    if move.Complete? && s.callers[move.id].key == c.key {
      assert Truthful(s, s.callers[move.id]);
      assert s.callers[move.id].stage.Holding? && NobodyStrayed(s, s.callers[move.id].store, c.key) ==> Owns(s, move.id);
    }
    if move.Create? { assert Truthful(s, s.callers[move.id]); }
  }

  /** On its way from the lock to the work. */
  predicate Underway(stage: Stage) { stage.Acquired? || stage.Creating? || stage.Holding? }

  predicate Undisturbed(s: State, moves: seq<Move>, id: CallerId)
    requires Runs(s, moves) && id in s.callers
    decreases |moves|
  {
    moves == [] ||
      (!Disturbs(s, moves[0], id) && id in Step(s, moves[0]).callers && Undisturbed(Step(s, moves[0]), moves[1..], id))
  }

  lemma {:induction false} NeverOwnsAgain(s: State, moves: seq<Move>, id: CallerId)
    requires LocksAreOwned(s) && Runs(s, moves) && id in s.callers && !s.callers[id].stage.Asking? && !Owns(s, id)
    ensures id in Final(s, moves).callers && !Owns(Final(s, moves), id)
    decreases |moves|
  {
    if moves != [] {
      var t := Step(s, moves[0]);
      CallersStay(s, moves[0], id);
      LocksStayOwned(s, moves[0]);
      NeverOwnsAgain(t, moves[1..], id);
    }
  }

  lemma {:induction false} StaysUnderway(s: State, moves: seq<Move>, id: CallerId)
    requires Runs(s, moves) && id in s.callers && !s.callers[id].stage.Asking?
    requires id in Final(s, moves).callers && Underway(Final(s, moves).callers[id].stage)
    ensures Underway(s.callers[id].stage)
    decreases |moves|
  {
    if moves != [] {
      CallersStay(s, moves[0], id);
      StaysUnderway(Step(s, moves[0]), moves[1..], id);
    }
  }

  /** From taking its lock to holding its receipt, a caller keeps the lock exactly while its store is not disturbed. */
  lemma {:induction false} LockKeptIff(s: State, moves: seq<Move>, id: CallerId)
    requires LocksAreOwned(s) && Runs(s, moves) && Owns(s, id)
    requires id in Final(s, moves).callers && Underway(Final(s, moves).callers[id].stage)
    ensures Owns(Final(s, moves), id) <==> Undisturbed(s, moves, id)
    decreases |moves|
  {
    if moves != [] {
      var t := Step(s, moves[0]);
      CallersStay(s, moves[0], id);
      LocksStayOwned(s, moves[0]);
      StaysUnderway(t, moves[1..], id);
      OwnsAfter(s, moves[0], id);
      if Owns(t, id) { LockKeptIff(t, moves[1..], id); } else { NeverOwnsAgain(t, moves[1..], id); }
    }
  }

  lemma OwnsAfter(s: State, move: Move, id: CallerId)
    requires LocksAreOwned(s) && Can(s, move) && Owns(s, id)
    requires id in Step(s, move).callers && Underway(Step(s, move).callers[id].stage)
    ensures Owns(Step(s, move), id) <==> !Disturbs(s, move, id)
  {
  }

  /** The step that releases leaves the key without this store's lock, and touches no other key. */
  lemma CompleteReleases(s: State, id: CallerId)
    requires Inv(s) && Can(s, Release(id))
    ensures var t, c := Step(s, Release(id)), s.callers[id];
      && (c.key in t.locks ==> t.callers[t.locks[c.key]].store != c.store)
      && forall key | key != c.key && key in s.locks :: key in t.locks && t.locks[key] == s.locks[key]
  {
    LocksStayOwned(s, Release(id));
  }

  /** No lock leaks: after any run, failed writes and crashes included, a key nobody is working on is unlocked. */
  lemma NoLockLeaks(moves: seq<Move>, key: Key)
    requires Runs(START, moves)
    requires forall id | id in Final(START, moves).callers && Inside(Final(START, moves).callers[id].stage) ::
      Final(START, moves).callers[id].key != key
    ensures key !in Final(START, moves).locks
  {
    hide Runs, Final, Inside, AllTruthful, InsidersOwn;
    StartIsSound();
    RunKeepsInv(START, moves);
  }

  // --- What a receipt on file says --------------------------------------------------------

  /** The receipt that a caller has in hand, if any. */
  function InHand(stage: Stage): Option<Receipt> {
    match stage
    case Dropping(r) => Some(r)
    case Holding(r) => Some(r)
    case Loose(r) => Some(r)
    case Releasing(r, _) => Some(r)
    case Closing(r) => Some(r)
    case _ => None
  }

  predicate SameOrigin(r: Receipt, f: Receipt) {
    r.key == f.key && r.operation == f.operation && r.inputHash == f.inputHash && r.startedAt == f.startedAt
  }

  /** Every receipt in hand began as the one on file. */
  predicate OneOrigin(s: State) {
    && (forall key | key in s.files :: s.files[key].key == key)
    && forall id | id in s.callers && InHand(s.callers[id].stage).Some? ::
         s.callers[id].key in s.files && SameOrigin(InHand(s.callers[id].stage).value, s.files[s.callers[id].key])
  }

  lemma StepKeepsOrigin(s: State, move: Move)
    requires AllTruthful(s) && OneOrigin(s) && Can(s, move)
    ensures OneOrigin(Step(s, move))
    ensures forall key | key in s.files :: key in Step(s, move).files && SameOrigin(s.files[key], Step(s, move).files[key])
  {
    if move.Create? { assert Truthful(s, s.callers[move.id]); }
  }

  /** The move writes a completion to the key's file. */
  predicate Writes(s: State, move: Move, key: Key)
    requires Can(s, move)
  {
    move.Complete? && move.writable && s.callers[move.id].key == key
  }

  /** The last completion that a run writes to the key's file. */
  function LastWrite(s: State, moves: seq<Move>, key: Key): (m: Option<Move>)
    requires Runs(s, moves)
    ensures m.Some? ==> m.value.Complete?
    decreases |moves|
  {
    if moves == [] then None
    else
      var later := LastWrite(Step(s, moves[0]), moves[1..], key);
      if later.Some? then later else if Writes(s, moves[0], key) then Some(moves[0]) else None
  }

  /** The first receipt that a run creates for the key: operation, input hash and time. */
  function FirstBegin(s: State, moves: seq<Move>, key: Key): Option<(string, string, int)>
    requires Runs(s, moves)
    decreases |moves|
  {
    if moves == [] then None
    else if moves[0].Create? && s.callers[moves[0].id].key == key then
      Some((moves[0].operation, s.callers[moves[0].id].inputHash, moves[0].now))
    else FirstBegin(Step(s, moves[0]), moves[1..], key)
  }

  lemma WriteShows(s: State, move: Move, key: Key)
    requires AllTruthful(s) && OneOrigin(s) && Can(s, move)
    ensures key in s.files && !Writes(s, move, key) ==> Step(s, move).files[key] == s.files[key]
    ensures Writes(s, move, key) ==>
      && key in s.files && key in Step(s, move).files
      && var f := Step(s, move).files[key];
         f.status == move.status && f.output == move.output && f.completedAt == Some(move.now)
    ensures key !in s.files && key in Step(s, move).files ==>
      && move.Create? && s.callers[move.id].key == key
      && Step(s, move).files[key]
           == Receipt(key, move.operation, s.callers[move.id].inputHash, Running, "", move.now, None)
    ensures move.Create? && s.callers[move.id].key == key ==> key !in s.files && key in Step(s, move).files
  {
    if move.Create? { assert Truthful(s, s.callers[move.id]); }
  }

  lemma {:induction false} WrittenStays(s: State, moves: seq<Move>, key: Key)
    requires Inv(s) && OneOrigin(s) && Runs(s, moves) && key in s.files
    ensures var t := Final(s, moves);
      && key in t.files && SameOrigin(s.files[key], t.files[key])
      && match LastWrite(s, moves, key)
         case Some(m) =>
           t.files[key].status == m.status && t.files[key].output == m.output && t.files[key].completedAt == Some(m.now)
         case None => t.files[key] == s.files[key]
    decreases |moves|
  {
    hide Step, Can, Inv, OneOrigin, Writes;
    if moves != [] {
      assert AllTruthful(s) by { InvIsTruthful(s); }
      StepKeepsInv(s, moves[0]);
      StepKeepsOrigin(s, moves[0]);
      WriteShows(s, moves[0], key);
      WrittenStays(Step(s, moves[0]), moves[1..], key);
    }
  }

  lemma InvIsTruthful(s: State) requires Inv(s) ensures AllTruthful(s) {}

  lemma {:induction false} FileTells(s: State, moves: seq<Move>, key: Key)
    requires Inv(s) && OneOrigin(s) && Runs(s, moves) && key !in s.files
    ensures key in Final(s, moves).files <==> FirstBegin(s, moves, key).Some?
    ensures key in Final(s, moves).files ==>
      Tells(Final(s, moves).files[key], key, FirstBegin(s, moves, key).value, LastWrite(s, moves, key))
    decreases |moves|
  {
    hide Step, Can, Inv, OneOrigin, Writes;
    if moves != [] {
      assert AllTruthful(s) by { InvIsTruthful(s); }
      var t := Step(s, moves[0]);
      StepKeepsInv(s, moves[0]);
      StepKeepsOrigin(s, moves[0]);
      WriteShows(s, moves[0], key);
      if key in t.files { WrittenStays(t, moves[1..], key); } else { FileTells(t, moves[1..], key); }
    }
  }

  /** A receipt that says how the operation was begun and how it was last completed. */
  predicate Tells(f: Receipt, key: Key, begun: (string, string, int), last: Option<Move>)
    requires last.Some? ==> last.value.Complete?
  {
    && f.key == key && f.operation == begun.0 && f.inputHash == begun.1 && f.startedAt == begun.2
    && match last
       case Some(m) => f.status == m.status && f.output == m.output && f.completedAt == Some(m.now)
       case None => f.status == Running && f.output == "" && f.completedAt == None
  }

  /**
   In every run a key has a receipt exactly once one was created, and it says how the operation was first begun
   and how it was last completed; whoever then looks with this input hash is handed just that.
   */
  lemma ReplayReadsBack(moves: seq<Move>, key: Key)
    requires Runs(START, moves)
    ensures var s := Final(START, moves);
      && (key in s.files <==> FirstBegin(START, moves, key).Some?)
      && (key in s.files ==> Tells(s.files[key], key, FirstBegin(START, moves, key).value, LastWrite(START, moves, key)))
      && forall id | Can(s, Look(id)) && s.callers[id].key == key && key in s.files ::
           var stage := Step(s, Look(id)).callers[id].stage;
           && (s.callers[id].inputHash == s.files[key].inputHash ==> InHand(stage) == Some(s.files[key]))
           && (s.callers[id].inputHash != s.files[key].inputHash ==> stage == Refusing)
  {
    StartIsSound();
    hide Runs, Final, Inv, Tells, LastWrite, FirstBegin;
    FileTells(START, moves, key);
  }

  // --- When a success sticks --------------------------------------------------------------

  /** A caller that was handed an answer does not complete it again. */
  predicate Disciplined(s: State, move: Move)
    requires Can(s, move)
  {
    move.Complete? && s.callers[move.id].stage.Loose? ==> !Answers(s.callers[move.id].stage.receipt.status)
  }

  predicate Behaves(s: State, moves: seq<Move>)
    requires Runs(s, moves)
    decreases |moves|
  {
    moves == [] || (Disciplined(s, moves[0]) && Behaves(Step(s, moves[0]), moves[1..]))
  }

  predicate Answered(s: State, key: Key) { key in s.files && Answers(s.files[key].status) }

  /**
   A caller of the key that may still write: at work on a running receipt, retrying a receipt that
   answers nothing, or done with a first completion and not yet returned.
   */
  predicate MayWrite(c: Caller, key: Key) {
    && c.key == key
    && (c.stage.Holding? || c.stage.Closing? || (c.stage.Releasing? && c.stage.reports)
        || ((c.stage.Loose? || c.stage.Dropping?) && !Answers(c.stage.receipt.status)))
  }

  predicate NobodyMayWrite(s: State, key: Key) { forall id | id in s.callers :: !MayWrite(s.callers[id], key) }

  /**
   A final receipt changes exactly under a written completion that closes it differently, and that comes
   from a caller without the lock or from a holder under whose hands the key was settled.
   */
  lemma RewritersAreKnown(s: State, move: Move, key: Key)
    requires Inv(s) && Can(s, move) && Settled(s, key)
    ensures Step(s, move).files[key] != s.files[key] <==>
      && move.Complete? && move.writable && s.callers[move.id].key == key
      && Closed(s.callers[move.id].stage.receipt, move.status, move.output, move.now) != s.files[key]
    ensures move.Complete? && s.callers[move.id].key == key ==>
      var stage := s.callers[move.id].stage;
      && (stage.Loose? || stage.Closing? || (stage.Holding? && s.files[key] != stage.receipt))
      && (Disciplined(s, move) ==> MayWrite(s.callers[move.id], key))
  {
    if move.Complete? || move.Create? { assert Truthful(s, s.callers[move.id]); }
  }

  /** Without anyone who may write, an answer stays, and nobody comes to be one. */
  lemma AnswerStays(s: State, move: Move, key: Key)
    requires Inv(s) && Can(s, move) && Disciplined(s, move) && Answered(s, key) && NobodyMayWrite(s, key)
    ensures var t := Step(s, move); key in t.files && t.files[key] == s.files[key] && NobodyMayWrite(t, key)
  {
    hide LocksAreOwned, InsidersOwn;
    var t := Step(s, move);
    if move.Complete? || move.Create? { assert Truthful(s, s.callers[move.id]); }
    forall id | id in t.callers ensures !MayWrite(t.callers[id], key) {
      if id in s.callers { CallersStay(s, move, id); }
    }
  }

  lemma {:induction false} AnswerStaysAlong(s: State, moves: seq<Move>, key: Key)
    requires Inv(s) && Runs(s, moves) && Behaves(s, moves) && Answered(s, key) && NobodyMayWrite(s, key)
    ensures key in Final(s, moves).files && Final(s, moves).files[key] == s.files[key]
    decreases |moves|
  {
    hide Step, Can, Inv, Disciplined, NobodyMayWrite;
    if moves != [] {
      StepKeepsInv(s, moves[0]);
      AnswerStays(s, moves[0], key);
      AnswerStaysAlong(Step(s, moves[0]), moves[1..], key);
    }
  }

  /** Every disciplined run from here leaves the key's receipt as it is. */
  ghost predicate Sticks(s: State, key: Key)
    requires key in s.files
  {
    forall moves | Runs(s, moves) && Behaves(s, moves) ::
      key in Final(s, moves).files && Final(s, moves).files[key] == s.files[key]
  }

  lemma FailsOver(s: State, id: CallerId, key: Key)
    requires Answered(s, key) && id in s.callers && MayWrite(s.callers[id], key)
    requires s.callers[id].stage.Holding? || s.callers[id].stage.Loose? || s.callers[id].stage.Closing?
    ensures var moves := [Complete(id, Failed, "", 0, true)];
      Runs(s, moves) && Behaves(s, moves) && key in Final(s, moves).files && Final(s, moves).files[key].status == Failed
  {
    var fail := Complete(id, Failed, "", 0, true);
    assert [fail][1..] == [];
    assert Final(Step(s, fail), []) == Step(s, fail);
  }

  /** Whoever may write can put a failure over the answer. */
  lemma WriterOverwrites(s: State, id: CallerId, key: Key)
    requires Answered(s, key) && id in s.callers && MayWrite(s.callers[id], key)
    ensures !Sticks(s, key)
  {
    if s.callers[id].stage.Dropping? || s.callers[id].stage.Releasing? {
      var t := Step(s, Release(id));
      FailsOver(t, id, key);
      var moves := [Release(id), Complete(id, Failed, "", 0, true)];
      assert moves[1..] == [Complete(id, Failed, "", 0, true)];
      assert Runs(s, moves) && Behaves(s, moves) && Final(s, moves) == Final(t, moves[1..]);
    } else {
      FailsOver(s, id, key);
    }
  }

  /** A success sticks under all disciplined callers exactly when no caller of its key may still write. */
  lemma SuccessSticksIff(s: State, key: Key)
    requires Inv(s) && Answered(s, key)
    ensures Sticks(s, key) <==> NobodyMayWrite(s, key)
  {
    hide Inv, MayWrite, Runs, Final, Behaves;
    if NobodyMayWrite(s, key) {
      forall moves | Runs(s, moves) && Behaves(s, moves)
        ensures key in Final(s, moves).files && Final(s, moves).files[key] == s.files[key]
      {
        AnswerStaysAlong(s, moves, key);
      }
    } else {
      var id :| id in s.callers && MayWrite(s.callers[id], key);
      WriterOverwrites(s, id, key);
    }
  }

  // --- Runs in which a success is lost ----------------------------------------------------

  lemma {:induction false} RunMore(s: State, moves: seq<Move>, move: Move)
    requires Runs(s, moves) && Can(Final(s, moves), move)
    ensures Runs(s, moves + [move]) && Final(s, moves + [move]) == Step(Final(s, moves), move)
    ensures Behaves(s, moves) && Disciplined(Final(s, moves), move) ==> Behaves(s, moves + [move])
    decreases |moves|
  {
    hide Step, Can, Disciplined;
    if moves == [] {
      assert [] + [move] == [move] && [move][1..] == [];
    } else {
      RunMore(Step(s, moves[0]), moves[1..], move);
      assert (moves + [move])[1..] == moves[1..] + [move];
    }
  }

  lemma RunNothing(s: State) ensures Runs(s, []) && Behaves(s, []) && Final(s, []) == s {}

  /** A first caller with a store of its own is at work on a new receipt. */
  lemma FirstHolds() returns (moves: seq<Move>)
    ensures Runs(START, moves) && Behaves(START, moves)
    ensures var r := Started("k", "op", "h", 0);
      Final(START, moves) == State(map["k" := r], map["k" := 0], map[0 := Caller(0, "k", "h", Holding(r), false)])
  {
    hide Runs, Final, Behaves;
    moves := [];
    RunNothing(START);
    RunMore(START, moves, Ask(0, 0, "k", "h"));
    moves := moves + [Ask(0, 0, "k", "h")];
    RunMore(START, moves, Acquire(0));
    moves := moves + [Acquire(0)];
    RunMore(START, moves, Look(0));
    moves := moves + [Look(0)];
    RunMore(START, moves, Create(0, "op", 0));
    moves := moves + [Create(0, "op", 0)];
    assert Final(START, moves).files == map["k" := Started("k", "op", "h", 0)];
  }

  /** It completes, written or not, and gives the lock back. */
  lemma FirstCompletes(status: Status, writable: bool) returns (moves: seq<Move>)
    requires status != Running
    ensures Runs(START, moves) && Behaves(START, moves)
    ensures var r := Started("k", "op", "h", 0);
      Final(START, moves) == State(
        map["k" := if writable then Closed(r, status, "", 1) else r], map[],
        map[0 := Caller(0, "k", "h", if Answers(status) then Closing(r) else Ended, false)])
  {
    hide Runs, Final, Behaves;
    moves := FirstHolds();
    var complete := Complete(0, status, "", 1, writable);
    RunMore(START, moves, complete);
    moves := moves + [complete];
    RunMore(START, moves, Release(0));
    moves := moves + [Release(0)];
    var r := Started("k", "op", "h", 0);
    assert Final(START, moves).files == map["k" := if writable then Closed(r, status, "", 1) else r];
    assert Final(START, moves).locks == map[];
  }

  /**
   One caller is enough: its success is on file and its lock given back when reporting it fails, and
   it writes its failure over its own success.
   */
  lemma OneCallerLosesItsSuccess() returns (before: seq<Move>, after: seq<Move>)
    ensures Runs(START, before) && Runs(START, before + after) && Behaves(START, before + after)
    ensures forall id | id in Final(START, before + after).callers :: id == 0
    ensures "k" in Final(START, before).files && Final(START, before).files["k"].status == Succeeded
    ensures "k" in Final(START, before + after).files && Final(START, before + after).files["k"].status == Failed
  {
    hide Runs, Final, Behaves;
    before := FirstCompletes(Succeeded, true);
    after := [Complete(0, Failed, "", 2, true)];
    RunMore(START, before, Complete(0, Failed, "", 2, true));
  }

  /**
   A write that fails loses somebody else's work: the first caller's success is not written and its lock
   is given back, a second one takes up the running receipt with the lock, and the first
   then writes its failure under the second one's hands.
   */
  lemma HolderLosesItsReceipt() returns (moves: seq<Move>)
    ensures Runs(START, moves) && Behaves(START, moves)
    ensures var s := Final(START, moves);
      && 1 in s.callers && s.callers[1].stage.Holding? && Owns(s, 1)
      && "k" in s.files && s.files["k"].status == Failed && s.files["k"] != s.callers[1].stage.receipt
  {
    hide Runs, Final, Behaves;
    moves := FirstCompletes(Succeeded, false);
    RunMore(START, moves, Ask(1, 1, "k", "h"));
    moves := moves + [Ask(1, 1, "k", "h")];
    RunMore(START, moves, Acquire(1));
    moves := moves + [Acquire(1)];
    RunMore(START, moves, Look(1));
    moves := moves + [Look(1)];
    RunMore(START, moves, Complete(0, Failed, "", 2, true));
    moves := moves + [Complete(0, Failed, "", 2, true)];
  }

  /** Caller `id` asks for the failed receipt `r` and is handed it without the lock. */
  lemma GetsLoose(s: State, moves: seq<Move>, id: CallerId, r: Receipt) returns (more: seq<Move>)
    requires Runs(s, moves) && Behaves(s, moves)
    requires id !in Final(s, moves).callers && Final(s, moves).locks == map[] && Final(s, moves).files == map["k" := r]
    requires r.status == Failed && r.inputHash == "h"
    ensures Runs(s, more) && Behaves(s, more)
    ensures Final(s, more) == Final(s, moves).(callers := Final(s, moves).callers[id := Caller(id, "k", "h", Loose(r), false)])
  {
    hide Runs, Final, Behaves;
    ghost var callers := Final(s, moves).callers;
    RunMore(s, moves, Ask(id, id, "k", "h"));
    more := moves + [Ask(id, id, "k", "h")];
    RunMore(s, more, Acquire(id));
    more := more + [Acquire(id)];
    assert Final(s, more).callers == callers[id := Caller(id, "k", "h", Acquired, false)];
    RunMore(s, more, Look(id));
    more := more + [Look(id)];
    assert Final(s, more).callers == callers[id := Caller(id, "k", "h", Dropping(r), false)];
    RunMore(s, more, Release(id));
    more := more + [Release(id)];
    assert Final(s, more).locks == map[];
    assert Final(s, more).callers == callers[id := Caller(id, "k", "h", Loose(r), false)];
  }

  /** Two callers retry a failed operation, the first succeeds, and the second then writes its failure over the success. */
  lemma SuccessIsNotSticky() returns (before: seq<Move>, after: seq<Move>)
    ensures Runs(START, before) && Runs(START, before + after) && Behaves(START, before + after)
    ensures "k" in Final(START, before).files && Final(START, before).files["k"].status == Succeeded
    ensures "k" in Final(START, before + after).files && Final(START, before + after).files["k"].status == Failed
  {
    hide Runs, Final, Behaves;
    var failed := FirstCompletes(Failed, true);
    var r := Closed(Started("k", "op", "h", 0), Failed, "", 1);
    var one := GetsLoose(START, failed, 1, r);
    var two := GetsLoose(START, one, 2, r);
    RunMore(START, two, Complete(1, Succeeded, "done", 2, true));
    before := two + [Complete(1, Succeeded, "done", 2, true)];
    RunMore(START, before, Complete(2, Failed, "error", 3, true));
    after := [Complete(2, Failed, "error", 3, true)];
  }
}
