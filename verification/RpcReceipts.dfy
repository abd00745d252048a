/**
 Idempotent RPC calls over one workspace, as interleaved steps of any number of calls.

 A call locks its key without waiting, looks for a receipt, answers from it or does the work,
 replaces the receipt file in one step, unlocks and only then responds. Calls of different
 processes interleave between these steps, the work may fail, and a call may crash at any
 point, which drops its lock.
 */
module RpcReceipts {
  import opened Sequences

  type CallId = nat
  type Key = string
  type Hash = string
  type Output = string

  datatype Receipt = Receipt(inputHash: Hash, output: Output)

  /** Where a call is. Every stage from `Locked` to `Leaving` and `Failing` is inside the `with` block. */
  datatype Stage =
    | Opened
    | Locked
    | Replaying(output: Output)
    | Working
    | Written(output: Output)
    | Leaving(output: Output, replayed: bool)
    | Failing
    | Responding(output: Output, replayed: bool)
    | Ended

  datatype Call = Call(key: Key, hash: Hash, stage: Stage)

  datatype Response = Response(call: CallId, key: Key, hash: Hash, output: Output, replayed: bool)

  datatype State = State(
    receipts: map<Key, Receipt>, holders: map<Key, CallId>, calls: map<CallId, Call>, responses: seq<Response>)

  const START := State(map[], map[], map[], [])

  datatype Move =
    | Open(id: CallId, key: Key, hash: Hash)
    | Lock(id: CallId)
    | Look(id: CallId)
    | Finish(id: CallId, output: Output)
    | Fail(id: CallId)
    | Replace(id: CallId)
    | Answer(id: CallId)
    | Unlock(id: CallId)
    | Respond(id: CallId)
    | Crash(id: CallId)

  predicate At(s: State, id: CallId) { id in s.calls }

  function Moved(s: State, id: CallId, stage: Stage): State
    requires At(s, id)
  {
    s.(calls := s.calls[id := s.calls[id].(stage := stage)])
  }

  predicate Inside(stage: Stage) {
    stage.Locked? || stage.Replaying? || stage.Working? || stage.Written? || stage.Leaving? || stage.Failing?
  }

  predicate Can(s: State, move: Move) {
    match move
    case Open(id, _, _) => !At(s, id)
    case Lock(id) => At(s, id) && s.calls[id].stage.Opened?
    case Look(id) => At(s, id) && s.calls[id].stage.Locked?
    case Finish(id, _) => At(s, id) && s.calls[id].stage.Working?
    case Fail(id) => At(s, id) && s.calls[id].stage.Working?
    case Replace(id) => At(s, id) && s.calls[id].stage.Written?
    case Answer(id) => At(s, id) && s.calls[id].stage.Replaying?
    case Unlock(id) => At(s, id) && (s.calls[id].stage.Leaving? || s.calls[id].stage.Failing?)
    case Respond(id) => At(s, id) && s.calls[id].stage.Responding?
    case Crash(id) => At(s, id) && !s.calls[id].stage.Ended?
  }

  function Step(s: State, move: Move): State
    requires Can(s, move)
  {
    match move
    case Open(id, key, hash) => s.(calls := s.calls[id := Call(key, hash, Opened)])
    case Lock(id) =>
      if s.calls[id].key in s.holders then Moved(s, id, Ended)
      else Moved(s, id, Locked).(holders := s.holders[s.calls[id].key := id])
    case Look(id) =>
      var c := s.calls[id];
      if c.key !in s.receipts then Moved(s, id, Working)
      else if s.receipts[c.key].inputHash != c.hash then Moved(s, id, Failing)
      else Moved(s, id, Replaying(s.receipts[c.key].output))
    case Finish(id, output) => Moved(s, id, Written(output))
    case Fail(id) => Moved(s, id, Failing)
    case Replace(id) =>
      var c := s.calls[id];
      Moved(s, id, Leaving(c.stage.output, false)).(receipts := s.receipts[c.key := Receipt(c.hash, c.stage.output)])
    case Answer(id) => Moved(s, id, Leaving(s.calls[id].stage.output, true))
    case Unlock(id) =>
      var c := s.calls[id];
      Moved(s, id, if c.stage.Leaving? then Responding(c.stage.output, c.stage.replayed) else Ended)
        .(holders := s.holders - {c.key})
    case Respond(id) =>
      var c := s.calls[id];
      Moved(s, id, Ended).(responses := s.responses + [Response(id, c.key, c.hash, c.stage.output, c.stage.replayed)])
    case Crash(id) =>
      var c := s.calls[id];
      Moved(s, id, Ended).(holders := if Inside(c.stage) then s.holders - {c.key} else s.holders)
  }

  /** A schedule runs as long as every move is possible. */
  predicate Runs(s: State, moves: seq<Move>)
    decreases |moves|
  {
    moves == [] || (Can(s, moves[0]) && Runs(Step(s, moves[0]), moves[1..]))
  }

  function Final(s: State, moves: seq<Move>): State
    requires Runs(s, moves)
    decreases |moves|
  {
    if moves == [] then s else Final(Step(s, moves[0]), moves[1..])
  }

  // --- The invariant ----------------------------------------------------------------------

  /** A lock is held by exactly the call that is inside the block for its key. */
  predicate LocksAreHeld(s: State) {
    && (forall id | id in s.calls && Inside(s.calls[id].stage) ::
          s.calls[id].key in s.holders && s.holders[s.calls[id].key] == id)
    && (forall key | key in s.holders ::
          var id := s.holders[key]; id in s.calls && s.calls[id].key == key && Inside(s.calls[id].stage))
  }

  predicate Recorded(s: State, key: Key, hash: Hash, output: Output) {
    key in s.receipts && s.receipts[key] == Receipt(hash, output)
  }

  /** What a stage says about the receipt of its key. */
  predicate Backed(s: State, c: Call) {
    match c.stage
    case Working => c.key !in s.receipts
    case Written(_) => c.key !in s.receipts
    case Replaying(o) => Recorded(s, c.key, c.hash, o)
    case Leaving(o, _) => Recorded(s, c.key, c.hash, o)
    case Responding(o, _) => Recorded(s, c.key, c.hash, o)
    case _ => true
  }

  /** This call did the committed work and has responded or still may. */
  predicate Fresh(s: State, id: CallId, key: Key) {
    || (id in s.calls && s.calls[id].key == key && (s.calls[id].stage.Leaving? || s.calls[id].stage.Responding?)
        && !s.calls[id].stage.replayed)
    || exists i | 0 <= i < |s.responses| ::
         s.responses[i].call == id && s.responses[i].key == key && !s.responses[i].replayed
  }

  ghost predicate Inv(s: State) {
    && LocksAreHeld(s)
    && (forall id | id in s.calls :: Backed(s, s.calls[id]))
    && (forall r | r in s.responses ::
          Recorded(s, r.key, r.hash, r.output) && r.call in s.calls && s.calls[r.call].stage.Ended?)
    && (forall i, j | 0 <= i < j < |s.responses| :: s.responses[i].call != s.responses[j].call)
    && (forall id, other, key | Fresh(s, id, key) && Fresh(s, other, key) :: id == other)
    && (forall id, key | Fresh(s, id, key) :: key in s.receipts)
  }

  lemma StartIsSound()
    ensures Inv(START)
  {
  }

  /** Who is fresh after a move: whoever was, and the call that has just replaced the receipt. */
  lemma FreshAfter(s: State, move: Move, id: CallId, key: Key)
    requires Inv(s) && Can(s, move) && Fresh(Step(s, move), id, key)
    ensures Fresh(s, id, key) || (move == Replace(id) && s.calls[id].key == key)
  {
    hide LocksAreHeld, Backed, Recorded;
    var t := Step(s, move);
    if i :| 0 <= i < |t.responses| && t.responses[i].call == id && t.responses[i].key == key && !t.responses[i].replayed {
      if i < |s.responses| { assert s.responses[i] == t.responses[i]; }
    }
  }

  lemma InsidersHold(s: State, move: Move)
    requires LocksAreHeld(s) && Can(s, move)
    ensures var t := Step(s, move);
      forall id | id in t.calls && Inside(t.calls[id].stage) ::
        t.calls[id].key in t.holders && t.holders[t.calls[id].key] == id
  {
    var t := Step(s, move);
    forall id | id in t.calls && Inside(t.calls[id].stage)
      ensures t.calls[id].key in t.holders && t.holders[t.calls[id].key] == id
    {
      assert id in s.calls ==> s.calls[id].key == t.calls[id].key;
    }
  }

  lemma HoldersAreInside(s: State, move: Move)
    requires LocksAreHeld(s) && Can(s, move)
    ensures var t := Step(s, move);
      forall key | key in t.holders ::
        var id := t.holders[key]; id in t.calls && t.calls[id].key == key && Inside(t.calls[id].stage)
  {
    var t := Step(s, move);
    forall key | key in t.holders
      ensures var id := t.holders[key]; id in t.calls && t.calls[id].key == key && Inside(t.calls[id].stage)
    {
      assert key in s.holders ==> s.calls[s.holders[key]].key == key;
    }
  }

  lemma LocksStayHeld(s: State, move: Move)
    requires LocksAreHeld(s) && Can(s, move)
    ensures LocksAreHeld(Step(s, move))
  {
    hide Step, Can, Inside;
    InsidersHold(s, move);
    HoldersAreInside(s, move);
  }

  lemma StagesStayBacked(s: State, move: Move)
    requires Inv(s) && Can(s, move)
    ensures forall id | id in Step(s, move).calls :: Backed(Step(s, move), Step(s, move).calls[id])
  {
    hide Fresh;
  }

  /** A receipt, once written, never changes. */
  lemma ReceiptsStay(s: State, move: Move)
    requires Inv(s) && Can(s, move)
    ensures forall key | key in s.receipts :: key in Step(s, move).receipts && Step(s, move).receipts[key] == s.receipts[key]
  {
    hide Fresh;
  }

  lemma ResponsesStayBacked(s: State, move: Move)
    requires Inv(s) && Can(s, move)
    ensures var t := Step(s, move);
      forall r | r in t.responses :: Recorded(t, r.key, r.hash, r.output) && r.call in t.calls && t.calls[r.call].stage.Ended?
  {
    hide Fresh, LocksAreHeld;
    ReceiptsStay(s, move);
    var t := Step(s, move);
    forall r | r in t.responses
      ensures Recorded(t, r.key, r.hash, r.output) && r.call in t.calls && t.calls[r.call].stage.Ended?
    {
      if r !in s.responses { assert Backed(s, s.calls[r.call]); }
    }
  }

  lemma CallsRespondOnce(s: State, move: Move)
    requires Inv(s) && Can(s, move)
    ensures var t := Step(s, move);
      forall i, j | 0 <= i < j < |t.responses| :: t.responses[i].call != t.responses[j].call
  {
    hide Fresh, LocksAreHeld, Backed, Recorded;
    assert forall i | 0 <= i < |s.responses| :: s.responses[i] in s.responses;
  }

  lemma FreshStaysSingle(s: State, move: Move)
    requires Inv(s) && Can(s, move)
    ensures var t := Step(s, move);
      && (forall id, other, key | Fresh(t, id, key) && Fresh(t, other, key) :: id == other)
      && (forall id, key | Fresh(t, id, key) :: key in t.receipts)
  {
    hide Fresh, LocksAreHeld;
    var t := Step(s, move);
    forall id, key | Fresh(t, id, key) ensures key in t.receipts { FreshAfter(s, move, id, key); }
    forall id, other, key | Fresh(t, id, key) && Fresh(t, other, key) ensures id == other {
      FreshAfter(s, move, id, key);
      FreshAfter(s, move, other, key);
    }
  }

  lemma StepKeepsInv(s: State, move: Move)
    requires Inv(s) && Can(s, move)
    ensures Inv(Step(s, move))
  {
    hide Fresh, LocksAreHeld, Backed, Step, Recorded, Can;
    LocksStayHeld(s, move);
    StagesStayBacked(s, move);
    ResponsesStayBacked(s, move);
    CallsRespondOnce(s, move);
    FreshStaysSingle(s, move);
  }

  lemma {:induction false} RunKeepsInv(s: State, moves: seq<Move>)
    requires Inv(s) && Runs(s, moves)
    ensures Inv(Final(s, moves))
    ensures forall key | key in s.receipts ::
      key in Final(s, moves).receipts && Final(s, moves).receipts[key] == s.receipts[key]
    decreases |moves|
  {
    hide Inv, Step, Can;
    if moves != [] {
      StepKeepsInv(s, moves[0]);
      ReceiptsStay(s, moves[0]);
      RunKeepsInv(Step(s, moves[0]), moves[1..]);
    }
  }

  // --- Exactly one commit per key ---------------------------------------------------------

  /** In any interleaving, one key has one input and one output, and its work was handed out fresh at most once. */
  lemma OneCommitPerKey(moves: seq<Move>, i: nat, j: nat)
    requires Runs(START, moves)
    requires i < j < |Final(START, moves).responses|
    requires Final(START, moves).responses[i].key == Final(START, moves).responses[j].key
    ensures var x, y := Final(START, moves).responses[i], Final(START, moves).responses[j];
      && x.hash == y.hash && x.output == y.output
      && (x.replayed || y.replayed)
      && Recorded(Final(START, moves), x.key, x.hash, x.output)
  {
    hide Runs, Final, LocksAreHeld, Backed;
    StartIsSound();
    RunKeepsInv(START, moves);
    var s := Final(START, moves);
    var x, y := s.responses[i], s.responses[j];
    assert x in s.responses && y in s.responses;
    assert !x.replayed ==> Fresh(s, x.call, x.key);
    assert !y.replayed ==> Fresh(s, y.call, y.key);
  }

  // --- Retrying ---------------------------------------------------------------------------

  /** What one call does when nothing else moves: the new receipts, and the response if there is one. */
  function Alone(receipts: map<Key, Receipt>, key: Key, hash: Hash, work: Result<Output>)
    : (map<Key, Receipt>, Option<(Output, bool)>)
  {
    if key in receipts then
      (receipts, if receipts[key].inputHash == hash then Some((receipts[key].output, true)) else None)
    else match work
      case Raised => (receipts, None)
      case Ok(output) => (receipts[key := Receipt(hash, output)], Some((output, false)))
  }

  /** The moves of that call after it has looked for a receipt. */
  function AloneMoves(receipts: map<Key, Receipt>, id: CallId, key: Key, hash: Hash, work: Result<Output>): seq<Move> {
    if key in receipts then
      if receipts[key].inputHash == hash then [Answer(id), Unlock(id), Respond(id)] else [Unlock(id)]
    else match work
      case Ok(output) => [Finish(id, output), Replace(id), Unlock(id), Respond(id)]
      case Raised => [Fail(id), Unlock(id)]
  }

  /** The state once call `id` has ended. */
  function AloneState(s: State, id: CallId, key: Key, hash: Hash, work: Result<Output>): State {
    var (receipts, response) := Alone(s.receipts, key, hash, work);
    State(receipts, s.holders, s.calls[id := Call(key, hash, Ended)],
          s.responses + if response.Some? then [Response(id, key, hash, response.value.0, response.value.1)] else [])
  }

  lemma RunThen(s: State, move: Move, rest: seq<Move>)
    requires Can(s, move) && Runs(Step(s, move), rest)
    ensures Runs(s, [move] + rest) && Final(s, [move] + rest) == Final(Step(s, move), rest)
  {
    assert ([move] + rest)[1..] == rest;
  }

  /** Call `id` at a stage, holding its lock if it is inside the block. */
  function Staged(s: State, id: CallId, key: Key, hash: Hash, stage: Stage): State {
    s.(calls := s.calls[id := Call(key, hash, stage)], holders := if Inside(stage) then s.holders[key := id] else s.holders)
  }

  lemma ThenUnlock(s: State, id: CallId, key: Key, hash: Hash, stage: Stage)
    requires key !in s.holders && (stage.Leaving? || stage.Failing?)
    ensures Can(Staged(s, id, key, hash, stage), Unlock(id))
    ensures Step(Staged(s, id, key, hash, stage), Unlock(id))
      == Staged(s, id, key, hash, if stage.Leaving? then Responding(stage.output, stage.replayed) else Ended)
  {
    assert s.holders[key := id] - {key} == s.holders;
    var c := Call(key, hash, stage);
    var next := if stage.Leaving? then Responding(stage.output, stage.replayed) else Ended;
    assert s.calls[id := c][id := c.(stage := next)] == s.calls[id := c.(stage := next)];
  }

  /** A move inside the block that only changes the stage. */
  lemma ThenStage(s: State, id: CallId, key: Key, hash: Hash, stage: Stage, next: Stage)
    requires Inside(stage) && Inside(next)
    ensures Moved(Staged(s, id, key, hash, stage), id, next) == Staged(s, id, key, hash, next)
  {
    var c := Call(key, hash, stage);
    assert s.calls[id := c][id := c.(stage := next)] == s.calls[id := c.(stage := next)];
  }

  lemma RunNothing(s: State) ensures Runs(s, []) && Final(s, []) == s {}

  /** Unlocking and responding. */
  lemma RunLeave(s: State, id: CallId, key: Key, hash: Hash, output: Output, replayed: bool)
    requires key !in s.holders
    ensures var t, moves := Staged(s, id, key, hash, Leaving(output, replayed)), [Unlock(id)] + [Respond(id)];
      Runs(t, moves) && Final(t, moves)
        == Staged(s, id, key, hash, Ended).(responses := s.responses + [Response(id, key, hash, output, replayed)])
  {
    var t := Staged(s, id, key, hash, Leaving(output, replayed));
    ThenUnlock(s, id, key, hash, Leaving(output, replayed));
    var u := Step(t, Unlock(id));
    var c := Call(key, hash, Responding(output, replayed));
    assert s.calls[id := c][id := c.(stage := Ended)] == s.calls[id := c.(stage := Ended)];
    RunNothing(Step(u, Respond(id)));
    RunThen(u, Respond(id), []);
    assert [Respond(id)] + [] == [Respond(id)];
    RunThen(t, Unlock(id), [Respond(id)]);
  }

  lemma RunFail(s: State, id: CallId, key: Key, hash: Hash)
    requires key !in s.holders
    ensures var t := Staged(s, id, key, hash, Failing);
      Runs(t, [Unlock(id)]) && Final(t, [Unlock(id)]) == Staged(s, id, key, hash, Ended)
  {
    var t := Staged(s, id, key, hash, Failing);
    ThenUnlock(s, id, key, hash, Failing);
    RunNothing(Step(t, Unlock(id)));
    RunThen(t, Unlock(id), []);
    assert [Unlock(id)] + [] == [Unlock(id)];
  }

  lemma RunReplay(s: State, id: CallId, key: Key, hash: Hash, o: Output)
    requires key !in s.holders
    ensures var t, moves := Staged(s, id, key, hash, Replaying(o)), [Answer(id), Unlock(id), Respond(id)];
      Runs(t, moves) && Final(t, moves)
        == Staged(s, id, key, hash, Ended).(responses := s.responses + [Response(id, key, hash, o, true)])
  {
    hide Runs, Final, Step, Can, Staged;
    StageMoves(s, id, key, hash, o);
    RunLeave(s, id, key, hash, o, true);
    RunThen(Staged(s, id, key, hash, Replaying(o)), Answer(id), [Unlock(id)] + [Respond(id)]);
    assert [Answer(id)] + ([Unlock(id)] + [Respond(id)]) == [Answer(id), Unlock(id), Respond(id)];
  }

  lemma RunWork(s: State, id: CallId, key: Key, hash: Hash, o: Output)
    requires key !in s.holders
    ensures var t, moves := Staged(s, id, key, hash, Working), [Finish(id, o), Replace(id), Unlock(id), Respond(id)];
      Runs(t, moves) && Final(t, moves)
        == Staged(s, id, key, hash, Ended).(receipts := s.receipts[key := Receipt(hash, o)],
                                            responses := s.responses + [Response(id, key, hash, o, false)])
  {
    hide Runs, Final, Step, Can;
    StageMoves(s, id, key, hash, o);
    var w := s.(receipts := s.receipts[key := Receipt(hash, o)]);
    RunLeave(w, id, key, hash, o, false);
    RunThen(Staged(s, id, key, hash, Written(o)), Replace(id), [Unlock(id)] + [Respond(id)]);
    RunThen(Staged(s, id, key, hash, Working), Finish(id, o), [Replace(id)] + ([Unlock(id)] + [Respond(id)]));
    assert [Finish(id, o)] + ([Replace(id)] + ([Unlock(id)] + [Respond(id)]))
        == [Finish(id, o), Replace(id), Unlock(id), Respond(id)];
  }

  lemma RunFailedWork(s: State, id: CallId, key: Key, hash: Hash)
    requires key !in s.holders
    ensures var t, moves := Staged(s, id, key, hash, Working), [Fail(id), Unlock(id)];
      Runs(t, moves) && Final(t, moves) == Staged(s, id, key, hash, Ended)
  {
    hide Runs, Final, Step, Can, Staged;
    StageMoves(s, id, key, hash, "");
    RunFail(s, id, key, hash);
    RunThen(Staged(s, id, key, hash, Working), Fail(id), [Unlock(id)]);
    assert [Fail(id)] + [Unlock(id)] == [Fail(id), Unlock(id)];
  }

  /** From the moment it holds its lock, a call that is not disturbed does what `Alone` says. */
  lemma RunLocked(s: State, id: CallId, key: Key, hash: Hash, work: Result<Output>)
    requires key !in s.holders
    ensures var t, moves := Staged(s, id, key, hash, Locked), [Look(id)] + AloneMoves(s.receipts, id, key, hash, work);
      Runs(t, moves) && Final(t, moves) == AloneState(s, id, key, hash, work)
  {
    hide Runs, Final, Step, Can;
    LookMove(s, id, key, hash);
    if key in s.receipts && s.receipts[key].inputHash == hash {
      RunReplay(s, id, key, hash, s.receipts[key].output);
    } else if key in s.receipts {
      RunFail(s, id, key, hash);
    } else if work.Ok? {
      RunWork(s, id, key, hash, work.value);
    } else {
      RunFailedWork(s, id, key, hash);
    }
    RunThen(Staged(s, id, key, hash, Locked), Look(id), AloneMoves(s.receipts, id, key, hash, work));
  }

  lemma LookMove(s: State, id: CallId, key: Key, hash: Hash)
    ensures var t := Staged(s, id, key, hash, Locked);
      && Can(t, Look(id))
      && Step(t, Look(id)) == Staged(s, id, key, hash,
           if key !in s.receipts then Working
           else if s.receipts[key].inputHash != hash then Failing else Replaying(s.receipts[key].output))
  {
    ThenStage(s, id, key, hash, Locked, Working);
    ThenStage(s, id, key, hash, Locked, Failing);
    if key in s.receipts { ThenStage(s, id, key, hash, Locked, Replaying(s.receipts[key].output)); }
  }

  lemma StageMoves(s: State, id: CallId, key: Key, hash: Hash, o: Output)
    ensures Can(Staged(s, id, key, hash, Replaying(o)), Answer(id))
    ensures Step(Staged(s, id, key, hash, Replaying(o)), Answer(id)) == Staged(s, id, key, hash, Leaving(o, true))
    ensures Can(Staged(s, id, key, hash, Working), Finish(id, o)) && Can(Staged(s, id, key, hash, Working), Fail(id))
    ensures Step(Staged(s, id, key, hash, Working), Finish(id, o)) == Staged(s, id, key, hash, Written(o))
    ensures Step(Staged(s, id, key, hash, Working), Fail(id)) == Staged(s, id, key, hash, Failing)
    ensures Can(Staged(s, id, key, hash, Written(o)), Replace(id))
    ensures Step(Staged(s, id, key, hash, Written(o)), Replace(id))
      == Staged(s.(receipts := s.receipts[key := Receipt(hash, o)]), id, key, hash, Leaving(o, false))
  {
    ThenStage(s, id, key, hash, Replaying(o), Leaving(o, true));
    ThenStage(s, id, key, hash, Working, Written(o));
    ThenStage(s, id, key, hash, Working, Failing);
    ThenStage(s, id, key, hash, Written(o), Leaving(o, false));
  }

  /**
   Whatever crashed before: once its key is unlocked, a new call that is left alone runs to its
   end and answers from the receipt, or does the work and leaves one.
   */
  lemma RetrySucceeds(s: State, id: CallId, key: Key, hash: Hash, work: Result<Output>) returns (moves: seq<Move>)
    requires !At(s, id) && key !in s.holders
    ensures Runs(s, moves) && Final(s, moves) == AloneState(s, id, key, hash, work)
  {
    hide Runs, Final;
    var first := Step(s, Open(id, key, hash));
    var locked := Step(first, Lock(id));
    var rest := [Look(id)] + AloneMoves(s.receipts, id, key, hash, work);
    assert first.calls[id := Call(key, hash, Locked)] == s.calls[id := Call(key, hash, Locked)];
    assert locked == Staged(s, id, key, hash, Locked);
    RunLocked(s, id, key, hash, work);
    RunThen(first, Lock(id), rest);
    RunThen(s, Open(id, key, hash), [Lock(id)] + rest);
    moves := [Open(id, key, hash)] + ([Lock(id)] + rest);
  }

  /** Crashes never leave a lock behind: when every call has ended, every key is free. */
  lemma EndedCallsHoldNothing(moves: seq<Move>)
    requires Runs(START, moves) && forall id | id in Final(START, moves).calls :: Final(START, moves).calls[id].stage.Ended?
    ensures Final(START, moves).holders == map[]
  {
    StartIsSound();
    RunKeepsInv(START, moves);
    assert Final(START, moves).holders.Keys == {};
  }

  /** The receipt files and lock files of one workspace, used by one call at a time. */
  class ReceiptStore {
    var receipts: map<Key, Receipt>
    var locked: set<Key>

    constructor ()
      ensures receipts == map[] && locked == {}
    {
      receipts, locked := map[], {};
    }

    /** Takes the lock; a receipt for another input gives it back and raises. */
    method Claim(key: Key, hash: Hash) returns (r: Result<Option<Output>>)
      modifies this`locked
      ensures key in old(locked) ==> r.Raised? && locked == old(locked)
      ensures key !in old(locked) && key in receipts && receipts[key].inputHash != hash ==> r.Raised? && locked == old(locked)
      ensures key !in old(locked) && key in receipts && receipts[key].inputHash == hash ==>
        r == Ok(Some(receipts[key].output)) && locked == old(locked) + {key}
      ensures key !in old(locked) && key !in receipts ==> r == Ok(None) && locked == old(locked) + {key}
    {
      if key in locked { return Raised; }
      locked := locked + {key};
      if key in receipts {
        if receipts[key].inputHash != hash {
          locked := locked - {key};
          return Raised;
        }
        return Ok(Some(receipts[key].output));
      }
      return Ok(None);
    }

    method Commit(key: Key, hash: Hash, output: Output)
      modifies this`receipts
      ensures receipts == old(receipts)[key := Receipt(hash, output)]
    {
      receipts := receipts[key := Receipt(hash, output)];
    }

    method Release(key: Key)
      modifies this`locked
      ensures locked == old(locked) - {key}
    {
      locked := locked - {key};
    }

    /** One whole call: what `Alone` prescribes, and the lock is free again however it ends. */
    method Invoke(key: Key, hash: Hash, work: Result<Output>) returns (response: Option<(Output, bool)>)
      modifies this
      ensures locked == old(locked)
      ensures key in old(locked) ==> response == None && receipts == old(receipts)
      ensures key !in old(locked) ==> (receipts, response) == Alone(old(receipts), key, hash, work)
    {
      var claimed := Claim(key, hash);
      if claimed.Raised? { return None; }
      if claimed.value.Some? {
        Release(key);
        return Some((claimed.value.value, true));
      }
      if work.Raised? {
        Release(key);
        return None;
      }
      Commit(key, hash, work.value);
      Release(key);
      return Some((work.value, false));
    }
  }
}
