/**
 Exactly when crash-restart confluence holds, and that two whole passes always finish the work.

 A restarted pass leaves out every evaluated revision whose candidates some artifact holds. A
 revision can therefore be overtaken: an earlier one freezes an artifact that holds its
 candidates, the pass is killed, and the next pass never looks at it again.
 */
module Overtaking {
  import opened Sequences
  import opened Records
  import opened Evaluator
  import opened Curriculum
  import opened Artifacts
  import opened Worker
  import opened Lifecycle
  import opened Refinement
  import opened Guarantees
  import opened Histories
  import opened Restart

  // --- Worlds in which nothing raises -----------------------------------------------------

  /** Every revision that a pass does not wait for has its material and an outcome that rests. */
  predicate Sturdy(i: Inputs, env: Env) {
    forall a: nat | a < |i.revisions| ::
      && (Ready(i, a) ==> Rests(env, Mat(i, a), Outcome(env, Mat(i, a))))
      && (!Ready(i, a) ==> Skips(i, {}, i.revisions[a]))
  }

  lemma TurnOk(i: Inputs, env: Env, w: Ledger, a: nat)
    requires Good(i, env, w) && Sturdy(i, env) && a < |i.revisions| && Ready(i, a) && At(i, w, a).artifacts == []
    ensures var m := Mat(i, a); Advance(env, m.r, m.cs, m.sources, At(i, w, a)).ok
  {
    hide Inv, Own, Shape, OnChain, Advance, HasMaterial, MaterialOf, Outcome, Rests;
    GoodShape(i, env, w, a);
    NoTurnRaises(env, Mat(i, a), At(i, w, a));
  }

  // --- Whole passes -----------------------------------------------------------------------

  /** The turn of revision `k` in such a world. */
  lemma SturdyTurn(i: Inputs, env: Env, w: Ledger, done: set<Id>, k: nat)
    requires Underway(i, env, w, done) && Sturdy(i, env) && k < |i.revisions|
    ensures var s := ReviseOne(env, i, w, done, i.revisions[k]);
      && s.ok
      && (!Ready(i, k) || i.revisions[k].id in done ==> s == NOTHING)
      && (Ready(i, k) && i.revisions[k].id !in done ==>
            var m, own := Mat(i, k), At(i, w, k);
            && Shape(env.words, m, own) && own.artifacts == []
            && s == Advance(env, m.r, m.cs, m.sources, own)
            && Follows(env, m, own, s.posts))
  {
    hide Inv, Own, Next, Shape, OnChain, Advance, HasMaterial, MaterialOf, CoversFrozen, ReviseOne, Follows, Within, Outcome,
      Rests;
    var r := i.revisions[k];
    assert r in i.revisions;
    GoodInv(i, env, w, r);
    SkippedPostsNothing(env, i, w, done, r);
    if Ready(i, k) && r.id !in done {
      NotSkipped(i, done, r);
      TurnFollows(i, env, i, w, done, r);
      TurnOk(i, env, w, k);
    } else {
      assert Skips(i, done, r);
    }
  }

  lemma {:induction false} SturdyPass(i: Inputs, env: Env, w: Ledger, done: set<Id>, k: nat)
    requires Underway(i, env, w, done) && Sturdy(i, env) && k <= |i.revisions|
    ensures ReviseAll(env, i, w, done, i.revisions[k..]).ok
    decreases |i.revisions| - k
  {
    hide ReviseOne, ReviseAll, NoteAll, Underway, Turned, DoneAfter, Sturdy, Advance, Follows, Shape, Own, HasMaterial,
      MaterialOf;
    if k == |i.revisions| {
      ReviseNone(env, i, w, done);
      assert i.revisions[k..] == [];
    } else {
      var turn := ReviseOne(env, i, w, done, i.revisions[k]);
      ReviseAllUnfolds(env, i, w, done, i.revisions, k);
      SturdyTurn(i, env, w, done, k);
      WholeEffect(i, env, w, done, k);
      SturdyPass(i, env, NoteAll(w, turn.posts), DoneAfter(done, i.revisions[k], turn.posts), k + 1);
    }
  }

  /** What an uninterrupted pass does to every history. */
  lemma WholePass(i: Inputs, env: Env, w: Ledger)
    requires Good(i, env, w) && Sturdy(i, env)
    ensures var done, after := ArtifactRevisions(i.revisions, w), NoteAll(w, Posts(i, env, w).posts);
      && Posts(i, env, w).ok && Good(i, env, after)
      && Turned(i, env, w, after, done, 0, |i.revisions|)
  {
    hide ReviseAll, NoteAll, Turned, Sturdy, Good, ArtifactRevisions;
    var done := ArtifactRevisions(i.revisions, w);
    assert i.revisions[0..] == i.revisions;
    PassUnderway(i, env, w);
    SturdyPass(i, env, w, done, 0);
    var posts := Posts(i, env, w).posts;
    assert posts[..|posts|] == posts;
    var b, pre, later, j := SplitPass(i, env, w, done, 0, |posts|);
  }

  /** The whole turns of the revisions before `b`. */
  lemma {:induction false} ReachTurn(i: Inputs, env: Env, w: Ledger, done: set<Id>, k: nat, b: nat)
    returns (pre: seq<Event>, later: set<Id>)
    requires Underway(i, env, w, done) && Sturdy(i, env) && k <= b <= |i.revisions|
    ensures var after := NoteAll(w, pre);
      && ReviseAll(env, i, w, done, i.revisions[k..]).posts
         == pre + ReviseAll(env, i, after, later, i.revisions[b..]).posts
      && Underway(i, env, after, later) && Turned(i, env, w, after, done, k, b)
      && forall c: nat | b <= c < |i.revisions| :: i.revisions[c].id in later ==> i.revisions[c].id in done
    decreases b - k
  {
    hide ReviseOne, ReviseAll, NoteAll, Underway, Turned, DoneAfter, Sturdy, Advance, Follows, Shape, Own, HasMaterial,
      MaterialOf;
    if k == b {
      pre, later := [], done;
      NoteNone(w);
      TurnedNone(i, env, w, done, k);
    } else {
      var turn := ReviseOne(env, i, w, done, i.revisions[k]);
      var mid, next := NoteAll(w, turn.posts), DoneAfter(done, i.revisions[k], turn.posts);
      ReviseAllUnfolds(env, i, w, done, i.revisions, k);
      SturdyTurn(i, env, w, done, k);
      WholeEffect(i, env, w, done, k);
      var rest: seq<Event>;
      rest, later := ReachTurn(i, env, mid, next, k + 1, b);
      pre := turn.posts + rest;
      NoteAllConcat(w, turn.posts, rest);
      DoneGrows(done, i.revisions[k], turn.posts);
      UnderwayDistinct(i, env, w, done);
      TurnedMore(i, env, w, mid, NoteAll(w, pre), done, next, k, b);
      assert forall c: nat | b <= c < |i.revisions| :: RevisionKey(i.revisions[c]) != RevisionKey(i.revisions[k]);
    }
  }

  /** Everything that is not treated as done can go no further. */
  predicate AllStuck(i: Inputs, env: Env, w: Ledger, done: set<Id>) {
    forall c: nat | c < |i.revisions| && Ready(i, c) && i.revisions[c].id !in done :: Stuck(env, Mat(i, c), At(i, w, c))
  }

  lemma {:induction false} StuckPassIsQuiet(i: Inputs, env: Env, w: Ledger, done: set<Id>, k: nat)
    requires Underway(i, env, w, done) && Sturdy(i, env) && AllStuck(i, env, w, done) && k <= |i.revisions|
    ensures ReviseAll(env, i, w, done, i.revisions[k..]) == NOTHING
    decreases |i.revisions| - k
  {
    hide ReviseOne, ReviseAll, NoteAll, Underway, Sturdy, Advance, Follows, Shape, Own, HasMaterial, MaterialOf, Stuck;
    if k == |i.revisions| {
      ReviseNone(env, i, w, done);
      assert i.revisions[k..] == [];
    } else {
      ReviseAllUnfolds(env, i, w, done, i.revisions, k);
      SturdyTurn(i, env, w, done, k);
      if Ready(i, k) && i.revisions[k].id !in done { StuckTurnIsQuiet(env, Mat(i, k), At(i, w, k)); }
      assert ReviseOne(env, i, w, done, i.revisions[k]) == NOTHING;
      NoteNone(w);
      StuckPassIsQuiet(i, env, w, done, k + 1);
    }
  }

  function FullPass(env: Env, log: seq<Event>): seq<Event> { log + RunPass(env, log).posts }

  lemma DoneOnlyGrows(rs: seq<Revision>, w: Ledger, posts: seq<Event>)
    ensures ArtifactRevisions(rs, w) <= ArtifactRevisions(rs, NoteAll(w, posts))
  {
    hide Holds, CandidateIdsOf;
    RecordsGrow(w, posts);
  }

  function DoneIn(log: seq<Event>): set<Id> { ArtifactRevisions(InputsOf(log).revisions, LedgerOf(log)) }

  lemma FullPassIsPass(env: Env, log: seq<Event>)
    ensures FullPass(env, log) == After(log, Work(env, |RunPass(env, log).posts|))
  {
  }

  lemma FullPassStep(i: Inputs, env: Env, log: seq<Event>)
    requires OnTheWay(i, env, log) && Sturdy(i, env)
    ensures var next := FullPass(env, log);
      && RunPass(env, log).ok && OnTheWay(i, env, next) && DoneIn(log) <= DoneIn(next)
      && Turned(i, env, LedgerOf(log), LedgerOf(next), DoneIn(log), 0, |i.revisions|)
  {
    hide Good, Turned, ArtifactRevisions, ReviseAll, Sturdy, NoteAll;
    var w := LedgerOf(log);
    var posts := Posts(i, env, w).posts;
    assert RunPass(env, log) == Posts(i, env, w);
    PassStep(i, env, log, |posts|);
    FullPassIsPass(env, log);
    assert posts[..|posts|] == posts;
    WholePass(i, env, w);
    DoneOnlyGrows(i.revisions, w, posts);
  }

  /** From any log, two passes that are not killed leave the worker with nothing to do. */
  lemma TwoPassesFinish(i: Inputs, env: Env, log: seq<Event>)
    requires OnTheWay(i, env, log) && Sturdy(i, env)
    ensures var once := FullPass(env, log);
      var end := FullPass(env, once);
      && OnTheWay(i, env, end) && Quiet(env, end)
      && (forall c: nat | c < |i.revisions| && i.revisions[c].id in DoneIn(log) ::
            At(i, LedgerOf(end), c) == At(i, LedgerOf(log), c))
      && (forall c: nat | c < |i.revisions| && Ready(i, c) && i.revisions[c].id !in DoneIn(once) ::
            Settled(env, At(i, LedgerOf(end), c)) && At(i, LedgerOf(end), c) == Outcome(env, Mat(i, c)))
  {
    hide Good, Sturdy, FullPass, Stuck, Settled, Own, HasMaterial, MaterialOf, Outcome, DoneIn, Underway;
    var once := FullPass(env, log);
    var end := FullPass(env, once);
    FullPassStep(i, env, log);
    FullPassStep(i, env, once);
    var w := LedgerOf(end);
    forall c: nat | c < |i.revisions| && Ready(i, c) && i.revisions[c].id !in DoneIn(once)
      ensures Stuck(env, Mat(i, c), At(i, w, c)) && At(i, w, c) == Outcome(env, Mat(i, c))
    {
      StuckAtOutcome(i, env, w, c);
    }
    EndIsQuiet(i, env, end);
  }

  lemma EndIsQuiet(i: Inputs, env: Env, log: seq<Event>)
    requires OnTheWay(i, env, log) && Sturdy(i, env) && AllStuck(i, env, LedgerOf(log), DoneIn(log))
    ensures Quiet(env, log)
  {
    hide Good, Sturdy, AllStuck, Underway, ReviseAll, ArtifactRevisions;
    PassUnderway(i, env, LedgerOf(log));
    StuckPassIsQuiet(i, env, LedgerOf(log), DoneIn(log), 0);
    assert i.revisions[0..] == i.revisions;
  }

  /** With at most one evaluation each, nothing is frozen and nothing is treated as done. */
  lemma NothingDone(i: Inputs, env: Env, w: Ledger)
    requires Good(i, env, w)
    requires forall c: nat | c < |i.revisions| && Ready(i, c) :: |At(i, w, c).evaluations| <= 1
    ensures ArtifactRevisions(i.revisions, w) == {}
  {
    hide Good, Settled, Stuck, Own, HasMaterial, MaterialOf, Outcome, Holds;
    if w.artifacts != [] {
      var a := ArtifactOwner(i, env, w, w.artifacts[0]);
      assert false;
    }
  }

  lemma FreshHistories(i: Inputs, w: Ledger)
    requires w == NO_RECORDS
    ensures forall c: nat | c < |i.revisions| :: At(i, w, c) == NO_RECORDS
    ensures !Judging(NO_RECORDS)
  {
  }

  /** The uninterrupted schedule: two passes bring every revision to its outcome. */
  lemma UninterruptedFinishes(env: Env, log: seq<Event>)
    requires Fresh(log) && Sturdy(InputsOf(log), env)
    ensures var i, end := InputsOf(log), FullPass(env, FullPass(env, log));
      && Quiet(env, end)
      && forall c: nat | c < |i.revisions| && Ready(i, c) ::
           At(i, LedgerOf(end), c) == Outcome(env, Mat(i, c)) && Settled(env, Outcome(env, Mat(i, c)))
  {
    hide Good, Sturdy, FullPass, Stuck, Settled, Own, HasMaterial, MaterialOf, Outcome, Judging, ArtifactRevisions;
    var i := InputsOf(log);
    FreshIsGood(env, log);
    FullPassStep(i, env, log);
    FreshHistories(i, LedgerOf(log));
    NothingDone(i, env, LedgerOf(log));
    NothingDone(i, env, LedgerOf(FullPass(env, log)));
    TwoPassesFinish(i, env, log);
  }

  // --- Coming to rest ---------------------------------------------------------------------

  /**
   Without overtaking, some schedule comes to rest exactly when every revision that is not waited for
   has its material and an outcome whose next turn does not raise.
   */
  lemma RestsIffSturdy(env: Env, log: seq<Event>)
    requires Fresh(log) && NoOvertake(InputsOf(log), env)
    ensures (exists kills :: Quiet(env, Passes(env, log, kills))) <==> Sturdy(InputsOf(log), env)
  {
    hide HasMaterial, MaterialOf, Outcome, Rests, NoOvertake, Skips, Passes, Quiet, FullPass;
    var i := InputsOf(log);
    if kills :| Quiet(env, Passes(env, log, kills)) {
      forall a: nat | a < |i.revisions|
        ensures Ready(i, a) ==> Rests(env, Mat(i, a), Outcome(env, Mat(i, a)))
        ensures !Ready(i, a) ==> Skips(i, {}, i.revisions[a])
      {
        if Ready(i, a) { Confluence(env, log, kills, a); }
        if Lacking(i, a) { MissingHandoffBlocks(env, log, kills, a, a); }
      }
    }
    if Sturdy(i, env) {
      UninterruptedFinishes(env, log);
      var kills := TwoMore(env, log, []);
      NoPasses(env, log);
    }
  }

  // --- Overtaking -------------------------------------------------------------------------

  lemma {:induction false} PassesThen(env: Env, log: seq<Event>, kills: seq<nat>, k: nat)
    ensures Passes(env, log, kills + [k]) == After(Passes(env, log, kills), Work(env, k))
    decreases |kills|
  {
    hide After;
    if kills == [] {
      assert ([] + [k])[1..] == [];
    } else {
      PassesThen(env, After(log, Work(env, kills[0])), kills[1..], k);
      assert (kills + [k])[1..] == kills[1..] + [k];
    }
  }

  /** The first post of a revision's first turn is its bootstrap verdict. */
  lemma FirstPost(env: Env, m: Material)
    requires m.Valid() && Advance(env, m.r, m.cs, m.sources, NO_RECORDS).ok
    ensures var posts := Advance(env, m.r, m.cs, m.sources, NO_RECORDS).posts;
      posts != [] && NoteAll(NO_RECORDS, posts[..1]).plans == [] && |NoteAll(NO_RECORDS, posts[..1]).evaluations| == 1
  {
    hide Evaluate, AfterEvaluation;
    var posts := Advance(env, m.r, m.cs, m.sources, NO_RECORDS).posts;
    assert posts[..1] == [posts[0]];
    NoteOne(NO_RECORDS, posts[0]);
  }

  lemma ThroughIs(i: Inputs, env: Env, w: Ledger, kill: nat)
    ensures kill <= |Posts(i, env, w).posts| ==> Through(i, env, w, kill) == kill
  {
    hide ReviseAll, ArtifactRevisions;
  }

  /** Kill a pass after the whole turns before `b` and `j` posts of the turn of `b`. */
  lemma KillInTurn(i: Inputs, env: Env, log: seq<Event>, b: nat, j: nat) returns (kill: nat)
    requires OnTheWay(i, env, log) && Sturdy(i, env) && DoneIn(log) == {} && b < |i.revisions| && Ready(i, b)
    requires j <= |Advance(env, Mat(i, b).r, Mat(i, b).cs, Mat(i, b).sources, At(i, LedgerOf(log), b)).posts|
    ensures var next := After(log, Work(env, kill));
      var w, after, own := LedgerOf(log), LedgerOf(next), At(i, LedgerOf(log), b);
      && OnTheWay(i, env, next)
      && (forall c: nat | b < c < |i.revisions| :: At(i, after, c) == At(i, w, c))
      && (forall c: nat | c < b && Ready(i, c) :: Finished(env, Mat(i, c), At(i, w, c), At(i, after, c)))
      && At(i, after, b) == NoteAll(own, Advance(env, Mat(i, b).r, Mat(i, b).cs, Mat(i, b).sources, own).posts[..j])
  {
    hide Good, Sturdy, Finished, Own, HasMaterial, MaterialOf, ReviseAll, ReviseOne, NoteAll, Advance, ArtifactRevisions,
      Underway, Through, Kept, Follows, Shape, DoneAfter;
    var w := LedgerOf(log);
    var done := ArtifactRevisions(i.revisions, w);
    PassUnderway(i, env, w);
    assert i.revisions[0..] == i.revisions;
    var pre, later := ReachTurn(i, env, w, done, 0, b);
    var mid := NoteAll(w, pre);
    var turn := ReviseOne(env, i, mid, later, i.revisions[b]);
    var posts := Posts(i, env, w).posts;
    ReviseAllUnfolds(env, i, mid, later, i.revisions, b);
    SturdyTurn(i, env, mid, later, b);
    kill := |pre| + j;
    assert posts[..kill] == pre + turn.posts[..j];
    assert Through(i, env, w, kill) == kill by { ThroughIs(i, env, w, kill); }
    PassStep(i, env, log, kill);
    NoteAllConcat(w, pre, turn.posts[..j]);
    PartEffect(i, env, mid, later, b, j);
    FollowsPrefix(env, Mat(i, b), At(i, mid, b), turn.posts, j);
    OwnFollows(env, i, mid, b, turn.posts[..j]);
  }

  /** The first pass, killed right after the bootstrap verdict on revision `c`. */
  lemma KilledAfterVerdict(env: Env, log: seq<Event>, c: nat) returns (kill: nat)
    requires Fresh(log) && Sturdy(InputsOf(log), env) && c < |InputsOf(log).revisions| && Ready(InputsOf(log), c)
    ensures var i, next := InputsOf(log), After(log, Work(env, kill));
      && OnTheWay(i, env, next) && DoneIn(next) == {}
      && (forall a: nat | a < c && Ready(i, a) :: Settled(env, At(i, LedgerOf(next), a)))
      && At(i, LedgerOf(next), c).plans == [] && |At(i, LedgerOf(next), c).evaluations| == 1
  {
    hide Good, Settled, Own, HasMaterial, MaterialOf, Judging, ArtifactRevisions, NoteAll, Advance, Sturdy, After, Stuck;
    var i := InputsOf(log);
    FreshIsGood(env, log);
    FreshHistories(i, LedgerOf(log));
    NothingDone(i, env, LedgerOf(log));
    TurnOk(i, env, LedgerOf(log), c);
    FirstPost(env, Mat(i, c));
    kill := KillInTurn(i, env, log, c, 1);
    NothingDone(i, env, LedgerOf(After(log, Work(env, kill))));
  }

  /** The second pass, killed as soon as revision `a` is finished. */
  lemma KilledAfterTurn(i: Inputs, env: Env, log: seq<Event>, a: nat) returns (kill: nat)
    requires OnTheWay(i, env, log) && Sturdy(i, env) && DoneIn(log) == {}
    requires a < |i.revisions| && Ready(i, a) && Settled(env, At(i, LedgerOf(log), a))
    ensures var next := After(log, Work(env, kill));
      && OnTheWay(i, env, next)
      && At(i, LedgerOf(next), a) == Outcome(env, Mat(i, a))
      && forall c: nat | a < c < |i.revisions| :: At(i, LedgerOf(next), c) == At(i, LedgerOf(log), c)
  {
    hide Good, Settled, Own, HasMaterial, MaterialOf, ArtifactRevisions, NoteAll, Advance, Sturdy, After, Stuck, Follows,
      Shape, Kept, Outcome;
    var w := LedgerOf(log);
    var own := At(i, w, a);
    var posts := Advance(env, Mat(i, a).r, Mat(i, a).cs, Mat(i, a).sources, own).posts;
    GoodShape(i, env, w, a);
    UndoneIsOpen(i, env, w, a);
    TurnOk(i, env, w, a);
    WholeTurn(env, Mat(i, a), own);
    kill := KillInTurn(i, env, log, a, |posts|);
    assert posts[..|posts|] == posts;
    StuckAtOutcome(i, env, LedgerOf(After(log, Work(env, kill))), a);
  }

  lemma UndoneIsOpen(i: Inputs, env: Env, w: Ledger, a: nat)
    requires Good(i, env, w) && a < |i.revisions| && Ready(i, a) && ArtifactRevisions(i.revisions, w) == {}
    ensures At(i, w, a).artifacts == []
  {
    hide Inv, Own, HasMaterial, MaterialOf, ArtifactRevisions, OnChain;
    PassUnderway(i, env, w);
    assert i.revisions[a] in i.revisions;
  }

  /** An artifact in the log that holds an evaluated revision's candidates closes that revision. */
  lemma HeldIsDone(i: Inputs, w: Ledger, a: nat, c: nat, x: Artifact)
    requires OneEach(RevisionKey, i.revisions) && a < |i.revisions| && c < |i.revisions|
    requires x in At(i, w, a).artifacts && x.bundle == OfBundle && Holds(x, i.revisions[c].candidateIds)
    requires At(i, w, c).evaluations != [] && At(i, w, c).evaluations[0].bundle == OfBundle
    ensures i.revisions[c].id in ArtifactRevisions(i.revisions, w)
  {
    hide Holds, CandidateIdsOf, RestsOn, RunServes;
    OwnMembers(w, i.revisions[a].id);
    OwnMembers(w, i.revisions[c].id);
    CandidateIdsAt(i.revisions, c);
    var e := At(i, w, c).evaluations[0];
    assert e in At(i, w, c).evaluations;
  }

  lemma RecordsComeFromTheBundle(env: Env, m: Material, own: Ledger)
    requires m.Valid() && Shape(env.words, m, own)
    ensures forall e | e in own.evaluations :: e.bundle == OfBundle
    ensures forall x | x in own.artifacts :: x.bundle == OfBundle
  {
    hide Judge, BroadPlan, Practised, PracticeCases, RunsOf, BootstrapDataset, RunOf, DistinctRuns;
    PlansOfShape(env.words, m, own);
  }

  /** Once an earlier revision has frozen a holder of its candidates, an evaluated revision counts as done. */
  lemma OvertakenIsDone(i: Inputs, env: Env, w: Ledger, a: nat, c: nat, x: Artifact)
    requires Good(i, env, w) && a < |i.revisions| && c < |i.revisions| && Ready(i, a) && Ready(i, c)
    requires x in At(i, w, a).artifacts && Holds(x, i.revisions[c].candidateIds) && At(i, w, c).evaluations != []
    ensures i.revisions[c].id in ArtifactRevisions(i.revisions, w)
  {
    hide Good, Own, HasMaterial, MaterialOf, Shape, Holds, ArtifactRevisions, CoversFrozen;
    GoodShape(i, env, w, a);
    GoodShape(i, env, w, c);
    RecordsComeFromTheBundle(env, Mat(i, a), At(i, w, a));
    RecordsComeFromTheBundle(env, Mat(i, c), At(i, w, c));
    assert At(i, w, c).evaluations[0] in At(i, w, c).evaluations;
    PassUnderway(i, env, w);
    UnderwayDistinct(i, env, w, ArtifactRevisions(i.revisions, w));
    HeldIsDone(i, w, a, c, x);
  }

  /** Two passes killed so that revision `a` has frozen and revision `c` has only its bootstrap verdict. */
  lemma KilledTwice(env: Env, log: seq<Event>, a: nat, c: nat) returns (kills: seq<nat>)
    requires Fresh(log) && Sturdy(InputsOf(log), env)
    requires a < c < |InputsOf(log).revisions| && Ready(InputsOf(log), a) && Ready(InputsOf(log), c)
    ensures var i, end := InputsOf(log), Passes(env, log, kills);
      && |kills| == 2 && OnTheWay(i, env, end)
      && At(i, LedgerOf(end), a) == Outcome(env, Mat(i, a))
      && At(i, LedgerOf(end), c).plans == [] && |At(i, LedgerOf(end), c).evaluations| == 1
  {
    hide Good, Own, HasMaterial, MaterialOf, Sturdy, After, Stuck, Outcome, Settled, Passes;
    var i := InputsOf(log);
    var k := KilledAfterVerdict(env, log, c);
    var n := KilledAfterTurn(i, env, After(log, Work(env, k)), a);
    kills := [k, n];
    PassesThen(env, log, [], k);
    PassesThen(env, log, [k], n);
    assert [] + [k] == [k] && [k] + [n] == kills;
    assert Passes(env, log, []) == log by { NoPasses(env, log); }
  }

  lemma NoPasses(env: Env, log: seq<Event>) ensures Passes(env, log, []) == log {}

  /**
   When an earlier revision ends in an artifact that holds a later one's candidates, some
   schedule leaves the later one with its bootstrap verdict and nothing else, for good.
   */
  lemma Overtakes(env: Env, log: seq<Event>, a: nat, c: nat, x: Artifact) returns (kills: seq<nat>)
    requires Fresh(log) && Sturdy(InputsOf(log), env)
    requires a < c < |InputsOf(log).revisions| && Ready(InputsOf(log), a) && Ready(InputsOf(log), c)
    requires x in Outcome(env, Mat(InputsOf(log), a)).artifacts && Holds(x, InputsOf(log).revisions[c].candidateIds)
    ensures Quiet(env, Passes(env, log, kills))
    ensures At(InputsOf(log), LedgerOf(Passes(env, log, kills)), c).plans == []
    ensures Outcome(env, Mat(InputsOf(log), c)).plans != []
  {
    hide Good, Own, HasMaterial, MaterialOf, Sturdy, After, Outcome, Quiet, FullPass, ArtifactRevisions, Passes, Holds;
    var i := InputsOf(log);
    UninterruptedFinishes(env, log);
    var two := KilledTwice(env, log, a, c);
    var second := Passes(env, log, two);
    OvertakenIsDone(i, env, LedgerOf(second), a, c, x);
    TwoPassesFinish(i, env, second);
    kills := TwoMore(env, log, two);
  }

  /** A schedule may end with two passes that are not killed. */
  lemma TwoMore(env: Env, log: seq<Event>, kills: seq<nat>) returns (more: seq<nat>)
    ensures Passes(env, log, more) == FullPass(env, FullPass(env, Passes(env, log, kills)))
  {
    hide FullPass, After, Passes, RunPass;
    var log2 := Passes(env, log, kills);
    var k, n := |RunPass(env, log2).posts|, |RunPass(env, FullPass(env, log2)).posts|;
    more := kills + [k] + [n];
    PassesThen(env, log, kills, k);
    PassesThen(env, log, kills + [k], n);
    FullPassIsPass(env, log2);
    FullPassIsPass(env, FullPass(env, log2));
  }

  /** Once quiet, this schedule has given revision `c` its uninterrupted history. */
  predicate Agrees(env: Env, log: seq<Event>, kills: seq<nat>, c: nat)
    requires c < |InputsOf(log).revisions| && Ready(InputsOf(log), c)
  {
    var end := Passes(env, log, kills);
    Quiet(env, end) ==> At(InputsOf(log), LedgerOf(end), c) == Outcome(env, Mat(InputsOf(log), c))
  }

  /** Every schedule gives every revision its uninterrupted history, exactly when nothing is overtaken. */
  lemma ConfluentIff(env: Env, log: seq<Event>)
    requires Fresh(log) && Sturdy(InputsOf(log), env)
    ensures NoOvertake(InputsOf(log), env) <==>
      forall kills, c: nat | c < |InputsOf(log).revisions| && Ready(InputsOf(log), c) :: Agrees(env, log, kills, c)
  {
    hide Sturdy, Quiet, Outcome, Own, HasMaterial, MaterialOf, Passes, Holds;
    var i := InputsOf(log);
    if NoOvertake(i, env) {
      forall kills, c: nat | c < |i.revisions| && Ready(i, c) ensures Agrees(env, log, kills, c) {
        if Quiet(env, Passes(env, log, kills)) { Confluence(env, log, kills, c); }
      }
    } else {
      var a: nat, c: nat :| a < c < |i.revisions| && Ready(i, a) && Ready(i, c)
        && exists x | x in Outcome(env, Mat(i, a)).artifacts :: Holds(x, i.revisions[c].candidateIds);
      var x :| x in Outcome(env, Mat(i, a)).artifacts && Holds(x, i.revisions[c].candidateIds);
      var kills := Overtakes(env, log, a, c, x);
      assert !Agrees(env, log, kills, c);
    }
  }
}
