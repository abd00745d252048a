/**
 Crash and restart: what a revision's history looks like once the worker has nothing left
 to do, whatever passes were killed on the way there.

 The inputs, the active memory and the practice answers are fixed. A pass may be killed
 after any number of posts; the next one starts over from the log.
 */
module Restart {
  import opened Sequences
  import opened Records
  import opened Evaluator
  import opened Curriculum
  import opened Artifacts
  import opened Worker
  import opened Lifecycle
  import opened Refinement
  import opened Guarantees
  import opened Histories

  // --- One pass over the log --------------------------------------------------------------

  predicate Ready(i: Inputs, a: nat)
    requires a < |i.revisions|
  {
    HasMaterial(i, i.revisions[a])
  }

  function Mat(i: Inputs, a: nat): (m: Material)
    requires a < |i.revisions| && Ready(i, a)
    ensures m.Valid() && m.r == i.revisions[a]
  {
    MaterialOf(i, i.revisions[a])
  }

  function At(i: Inputs, w: Ledger, a: nat): Ledger
    requires a < |i.revisions|
  {
    Own(w, i.revisions[a].id)
  }

  /** Valid inputs, one content per id; every history is well formed and on its way to its outcome. */
  predicate Good(i: Inputs, env: Env, w: Ledger) {
    && Inv(i, env.words, w)
    && OneEach(RevisionKey, i.revisions) && (forall r | r in i.revisions :: ValidRevision(r))
    && forall a: nat | a < |i.revisions| && Ready(i, a) :: OnChain(env, Mat(i, a), At(i, w, a))
  }

  lemma GoodShape(i: Inputs, env: Env, w: Ledger, a: nat)
    requires Good(i, env, w) && a < |i.revisions| && Ready(i, a)
    ensures Shape(env.words, Mat(i, a), At(i, w, a))
  {
    hide Shape, HasMaterial, OnChain, Own, MaterialOf;
    assert i.revisions[a] in i.revisions;
    HistoryShape(i, env.words, w, i.revisions[a]);
  }

  lemma StepKeepsGood(i: Inputs, env: Env, w: Ledger, ev: Event)
    requires Good(i, env, w) && LegalStep(i, env, w, ev)
    ensures Good(i, env, Note(w, ev))
  {
    hide Inv, HasMaterial, Own, MaterialOf, Next, Shape, OnChain, Extends;
    StepKeepsInv(i, env, w, ev);
    forall a: nat | a < |i.revisions| && Ready(i, a) ensures OnChain(env, Mat(i, a), At(i, Note(w, ev), a)) {
      var r := i.revisions[a];
      OwnAfter(w, ev, r.id);
      GoodShape(i, env, w, a);
      if ev.HandoffPosted? {
        HandoffExtends(ev);
      } else {
        var q :| q in i.revisions && HasMaterial(i, q) && Next(env, MaterialOf(i, q), Own(w, q.id)) == Some(ev);
        var b: nat :| b < |i.revisions| && i.revisions[b] == q;
        GoodShape(i, env, w, b);
        NextExtends(env, MaterialOf(i, q), Own(w, q.id));
        if r.id == q.id {
          assert a == b;
          NextStaysOnChain(env, MaterialOf(i, q), Own(w, q.id));
        }
      }
    }
  }

  lemma {:induction false} LegalKeepsGood(i: Inputs, env: Env, w: Ledger, posts: seq<Event>)
    requires Good(i, env, w) && Legal(i, env, w, posts)
    ensures Good(i, env, NoteAll(w, posts))
    decreases |posts|
  {
    hide Good, LegalStep;
    if posts != [] {
      StepKeepsGood(i, env, w, posts[0]);
      LegalKeepsGood(i, env, Note(w, posts[0]), posts[1..]);
    }
  }

  /** A pass in progress: what it treats as done covers everything frozen. */
  predicate Underway(i: Inputs, env: Env, w: Ledger, done: set<Id>) {
    Good(i, env, w) && CoversFrozen(i, w, done)
  }

  /** Any part of the turn of revision `k` leaves the other histories alone and keeps its own. */
  lemma PartEffect(i: Inputs, env: Env, w: Ledger, done: set<Id>, k: nat, j: nat)
    requires Underway(i, env, w, done) && k < |i.revisions|
    requires j <= |ReviseOne(env, i, w, done, i.revisions[k]).posts|
    ensures var after := NoteAll(w, ReviseOne(env, i, w, done, i.revisions[k]).posts[..j]);
      && Good(i, env, after)
      && (forall c: nat | c < |i.revisions| && c != k :: At(i, after, c) == At(i, w, c))
      && (Ready(i, k) ==> Kept(env, Mat(i, k), At(i, w, k), At(i, after, k)))
      && (i.revisions[k].id in done || !Ready(i, k) ==> after == w)
  {
    hide Inv, Own, Next, Shape, OnChain, Extends, Advance, HasMaterial, MaterialOf, CoversFrozen, Kept, Legal,
      ReviseOne, Follows, Within;
    var r := i.revisions[k];
    assert r in i.revisions;
    var posts := ReviseOne(env, i, w, done, r).posts;
    assert Within(i, i) by { ConsistentInv(i, env, w); }
    TurnIsLegal(i, env, i, w, done, r);
    LegalPrefix(i, env, w, posts, j);
    LegalKeepsGood(i, env, w, posts[..j]);
    forall c: nat | c < |i.revisions| && c != k ensures At(i, NoteAll(w, posts[..j]), c) == At(i, w, c) {
      OthersUntouched(w, posts[..j], r.id, i.revisions[c].id);
    }
    SkippedPostsNothing(env, i, w, done, r);
    if Skips(i, done, r) {
      assert posts[..j] == [];
      NoteNone(w);
      if Ready(i, k) { SameIsKept(env, Mat(i, k), At(i, w, k), i, w, k); }
    } else if Ready(i, k) {
      TurnFollows(i, env, i, w, done, r);
      PartOfTurn(env, Mat(i, k), At(i, w, k), j);
      OwnFollows(env, i, w, k, posts[..j]);
    } else {
      assert posts[..j] == [];
      NoteNone(w);
    }
  }

  lemma ConsistentInv(i: Inputs, env: Env, w: Ledger) requires Inv(i, env.words, w) ensures Within(i, i) {}

  lemma SameIsKept(env: Env, m: Material, own: Ledger, i: Inputs, w: Ledger, k: nat)
    requires k < |i.revisions| && Ready(i, k) && Good(i, env, w) && m == Mat(i, k) && own == At(i, w, k)
    ensures Kept(env, m, own, own)
  {
    hide Next, Shape, Settled, Judging, Inv, HasMaterial, Own;
    GoodShape(i, env, w, k);
    ShapeBounds(env.words, m, own);
  }

  /** Noting in the log what follows the protocol notes it in the history. */
  lemma {:induction false} OwnFollows(env: Env, i: Inputs, w: Ledger, k: nat, posts: seq<Event>)
    requires k < |i.revisions| && Ready(i, k) && Shape(env.words, Mat(i, k), At(i, w, k))
    requires Follows(env, Mat(i, k), At(i, w, k), posts)
    ensures At(i, NoteAll(w, posts), k) == NoteAll(At(i, w, k), posts)
    decreases |posts|
  {
    hide Next, Shape, Own, HasMaterial, MaterialOf, Extends;
    if posts != [] {
      var ev := posts[0];
      OwnAfter(w, ev, i.revisions[k].id);
      if ev.HandoffPosted? {
        HandoffExtends(ev);
      } else {
        NextExtends(env, Mat(i, k), At(i, w, k));
        NextKeepsShape(env, Mat(i, k), At(i, w, k));
      }
      OwnFollows(env, i, Note(w, ev), k, posts[1..]);
    }
  }

  /** The whole turn of revision `k`, when it does not raise. */
  lemma WholeEffect(i: Inputs, env: Env, w: Ledger, done: set<Id>, k: nat)
    requires Underway(i, env, w, done) && k < |i.revisions|
    requires ReviseOne(env, i, w, done, i.revisions[k]).ok
    ensures var r := i.revisions[k];
      var s := ReviseOne(env, i, w, done, r);
      && Underway(i, env, NoteAll(w, s.posts), DoneAfter(done, r, s.posts))
      && Turned(i, env, w, NoteAll(w, s.posts), done, k, k + 1)
  {
    hide Inv, Own, Next, Shape, OnChain, Extends, Advance, HasMaterial, MaterialOf, CoversFrozen, Kept, Legal,
      ReviseOne, Follows, Within, Settled, Good, NoteAll;
    var r := i.revisions[k];
    assert r in i.revisions;
    var posts := ReviseOne(env, i, w, done, r).posts;
    assert Within(i, i) && ValidRevision(r) && Inv(i, env.words, w) by { GoodInv(i, env, w, r); }
    PartEffect(i, env, w, done, k, |posts|);
    assert posts[..|posts|] == posts;
    TurnIsLegal(i, env, i, w, done, r);
    if Ready(i, k) && r.id !in done {
      NotSkipped(i, done, r);
      TurnFollows(i, env, i, w, done, r);
      WholeTurn(env, Mat(i, k), At(i, w, k));
      OwnFollows(env, i, w, k, posts);
    }
  }

  lemma GoodInv(i: Inputs, env: Env, w: Ledger, r: Revision)
    requires Good(i, env, w) && r in i.revisions
    ensures Within(i, i) && ValidRevision(r) && Inv(i, env.words, w)
  {
  }

  lemma NotSkipped(i: Inputs, done: set<Id>, r: Revision)
    requires HasMaterial(i, r) && ValidRevision(r) && r.id !in done
    ensures !Skips(i, done, r)
  {
  }

  /** What the turns of revisions `k` to `b - 1` have done to every history. */
  predicate Turned(i: Inputs, env: Env, w: Ledger, after: Ledger, done: set<Id>, k: nat, b: nat) {
    forall c: nat | c < |i.revisions| ::
      && (c < k || b <= c || i.revisions[c].id in done || !Ready(i, c) ==> At(i, after, c) == At(i, w, c))
      && (k <= c < b && i.revisions[c].id !in done && Ready(i, c) ==> Finished(env, Mat(i, c), At(i, w, c), At(i, after, c)))
  }

  lemma TurnedNone(i: Inputs, env: Env, w: Ledger, done: set<Id>, k: nat)
    ensures Turned(i, env, w, w, done, k, k)
  {
  }

  /** One turn and then others. */
  lemma TurnedMore(
      i: Inputs, env: Env, w: Ledger, mid: Ledger, after: Ledger, done: set<Id>, later: set<Id>, k: nat, b: nat)
    requires OneEach(RevisionKey, i.revisions) && k < b <= |i.revisions|
    requires Turned(i, env, w, mid, done, k, k + 1) && Turned(i, env, mid, after, later, k + 1, b)
    requires done <= later <= done + {i.revisions[k].id}
    ensures Turned(i, env, w, after, done, k, b)
  {
    hide Finished, Own, HasMaterial, MaterialOf;
    forall c: nat | c < |i.revisions|
      ensures c < k || b <= c || i.revisions[c].id in done || !Ready(i, c) ==> At(i, after, c) == At(i, w, c)
      ensures k <= c < b && i.revisions[c].id !in done && Ready(i, c) ==>
        Finished(env, Mat(i, c), At(i, w, c), At(i, after, c))
    {
      assert c != k ==> RevisionKey(i.revisions[c]) != RevisionKey(i.revisions[k]);
      assert c != k ==> (i.revisions[c].id in done <==> i.revisions[c].id in later);
    }
  }

  /** A pass killed after some number of posts: whole turns, then part of a turn. */
  lemma {:induction false} SplitPass(i: Inputs, env: Env, w: Ledger, done: set<Id>, k: nat, kill: nat)
    returns (b: nat, pre: seq<Event>, later: set<Id>, j: nat)
    requires Underway(i, env, w, done) && k <= |i.revisions|
    requires kill <= |ReviseAll(env, i, w, done, i.revisions[k..]).posts|
    ensures k <= b <= |i.revisions|
    ensures var s, after := ReviseAll(env, i, w, done, i.revisions[k..]), NoteAll(w, pre);
      && Underway(i, env, after, later) && Turned(i, env, w, after, done, k, b)
      && (b < |i.revisions| ==>
            && j <= |ReviseOne(env, i, after, later, i.revisions[b]).posts|
            && s.posts[..kill] == pre + ReviseOne(env, i, after, later, i.revisions[b]).posts[..j])
      && (b == |i.revisions| ==> s.posts[..kill] == pre)
      && (s.ok && kill == |s.posts| ==> b == |i.revisions|)
    decreases |i.revisions| - k
  {
    hide ReviseOne, ReviseAll, NoteAll, Underway, Turned, DoneAfter;
    if k == |i.revisions| {
      b, pre, later, j := k, [], done, 0;
      ReviseNone(env, i, w, done);
      assert i.revisions[k..] == [];
      NoteNone(w);
      TurnedNone(i, env, w, done, k);
    } else {
      var turn := ReviseOne(env, i, w, done, i.revisions[k]);
      var mid := NoteAll(w, turn.posts);
      var next := DoneAfter(done, i.revisions[k], turn.posts);
      ReviseAllUnfolds(env, i, w, done, i.revisions, k);
      if kill < |turn.posts| || !turn.ok {
        b, pre, later, j := k, [], done, kill;
        NoteNone(w);
        TurnedNone(i, env, w, done, k);
      } else {
        WholeEffect(i, env, w, done, k);
        var rest: seq<Event>;
        b, rest, later, j := SplitPass(i, env, mid, next, k + 1, kill - |turn.posts|);
        pre := turn.posts + rest;
        NoteAllConcat(w, turn.posts, rest);
        DoneGrows(done, i.revisions[k], turn.posts);
        UnderwayDistinct(i, env, w, done);
        TurnedMore(i, env, w, mid, NoteAll(w, pre), done, next, k, b);
      }
    }
  }

  lemma DoneGrows(done: set<Id>, r: Revision, posts: seq<Event>)
    ensures done <= DoneAfter(done, r, posts) <= done + {r.id}
  {
  }

  lemma UnderwayDistinct(i: Inputs, env: Env, w: Ledger, done: set<Id>)
    requires Underway(i, env, w, done)
    ensures OneEach(RevisionKey, i.revisions)
  {
  }

  // --- Order among revisions --------------------------------------------------------------

  /** An earlier revision is always at least as far as a later one, stage by stage. */
  predicate Ahead(i: Inputs, env: Env, w: Ledger) {
    forall a: nat, c: nat | a < c < |i.revisions| && Ready(i, a) && Ready(i, c) ::
      && (At(i, w, c) != NO_RECORDS ==> Settled(env, At(i, w, a)))
      && (|At(i, w, c).evaluations| == 2 ==> Rests(env, Mat(i, a), At(i, w, a)))
  }

  /** Nothing unfinished is treated as done. */
  predicate DoneIsOver(i: Inputs, env: Env, w: Ledger, done: set<Id>) {
    forall a: nat | a < |i.revisions| && Ready(i, a) && i.revisions[a].id in done ::
      Settled(env, At(i, w, a)) && Rests(env, Mat(i, a), At(i, w, a))
  }

  /** What a pass killed during the turn of revision `b` has done to every history. */
  predicate KilledAt(i: Inputs, env: Env, w: Ledger, after: Ledger, done: set<Id>, b: nat) {
    forall c: nat | c < |i.revisions| && Ready(i, c) ::
      && Kept(env, Mat(i, c), At(i, w, c), At(i, after, c))
      && (c > b ==> At(i, after, c) == At(i, w, c))
      && (c < b && i.revisions[c].id !in done ==> Finished(env, Mat(i, c), At(i, w, c), At(i, after, c)))
  }

  lemma KilledPass(i: Inputs, env: Env, w: Ledger, done: set<Id>, kill: nat) returns (b: nat)
    requires Underway(i, env, w, done) && kill <= |ReviseAll(env, i, w, done, i.revisions).posts|
    ensures var s := ReviseAll(env, i, w, done, i.revisions);
      var after := NoteAll(w, s.posts[..kill]);
      && Good(i, env, after) && KilledAt(i, env, w, after, done, b)
      && (s.ok && kill == |s.posts| ==> b == |i.revisions|)
  {
    hide Settled, Stuck, Fine, Own, HasMaterial, MaterialOf, ReviseOne, ReviseAll, NoteAll, Judging, Good, Kept, CoversFrozen;
    assert i.revisions[0..] == i.revisions;
    var pre, later, j;
    b, pre, later, j := SplitPass(i, env, w, done, 0, kill);
    var mid := NoteAll(w, pre);
    var part := if b == |i.revisions| then [] else ReviseOne(env, i, mid, later, i.revisions[b]).posts[..j];
    NoteAllConcat(w, pre, part);
    if b < |i.revisions| { PartEffect(i, env, mid, later, b, j); } else { NoteNone(mid); assert pre + part == pre; }
    forall c: nat | c < |i.revisions| && Ready(i, c) ensures Kept(env, Mat(i, c), At(i, w, c), At(i, w, c)) {
      SameIsKept(env, Mat(i, c), At(i, w, c), i, w, c);
    }
  }

  lemma JudgingIsSome(own: Ledger) requires Judging(own) ensures own != NO_RECORDS {}

  /** Wherever a pass is killed, earlier revisions stay ahead. */
  lemma AheadKept(i: Inputs, env: Env, w: Ledger, done: set<Id>, kill: nat)
    requires Underway(i, env, w, done) && Ahead(i, env, w) && DoneIsOver(i, env, w, done)
    requires kill <= |ReviseAll(env, i, w, done, i.revisions).posts|
    ensures Ahead(i, env, NoteAll(w, ReviseAll(env, i, w, done, i.revisions).posts[..kill]))
  {
    hide Settled, Stuck, Fine, Own, HasMaterial, MaterialOf, Underway, ReviseAll, NoteAll, Judging;
    var after := NoteAll(w, ReviseAll(env, i, w, done, i.revisions).posts[..kill]);
    var b := KilledPass(i, env, w, done, kill);
    forall a: nat, c: nat | a < c < |i.revisions| && Ready(i, a) && Ready(i, c)
      ensures At(i, after, c) != NO_RECORDS ==> Settled(env, At(i, after, a))
      ensures |At(i, after, c).evaluations| == 2 ==> Rests(env, Mat(i, a), At(i, after, a))
    {
      if c <= b && Judging(At(i, w, c)) { JudgingIsSome(At(i, w, c)); }
    }
  }

  /** No earlier revision ends by freezing an artifact that already holds a later one's candidates. */
  predicate NoOvertake(i: Inputs, env: Env) {
    forall a: nat, c: nat | a < c < |i.revisions| && Ready(i, a) && Ready(i, c) ::
      forall x | x in Outcome(env, Mat(i, a)).artifacts :: !Holds(x, i.revisions[c].candidateIds)
  }

  /** The revision whose history an artifact of the log closes. */
  lemma ArtifactOwner(i: Inputs, env: Env, w: Ledger, x: Artifact) returns (a: nat)
    requires Good(i, env, w) && x in w.artifacts
    ensures a < |i.revisions| && Ready(i, a) && x in At(i, w, a).artifacts
    ensures At(i, w, a) == Outcome(env, Mat(i, a))
    ensures Settled(env, At(i, w, a)) && Rests(env, Mat(i, a), At(i, w, a)) && |At(i, w, a).evaluations| == 2
  {
    hide Shape, Settled, Stuck, Fine, HasMaterial, MaterialOf, Next, Outcome, OnChain, Own, EvaluationLinked, PlanLinked,
      RunLinked, RestsOn;
    assert ArtifactLinked(i, x);
    var r :| r in i.revisions && RestsOn(x, r.id);
    a :| 0 <= a < |i.revisions| && i.revisions[a] == r;
    OwnMembersIs(w, r.id, x);
    assert HistoryOk(i, env.words, r, Own(w, r.id));
    FrozenIsOver(env, Mat(i, a), At(i, w, a));
    StuckIsOutcome(env, Mat(i, a), At(i, w, a));
  }

  lemma OwnMembersIs(w: Ledger, rid: Id, x: Artifact)
    requires x in w.artifacts && RestsOn(x, rid)
    ensures x in Own(w, rid).artifacts
  {
    OwnMembers(w, rid);
  }

  lemma CandidateIdsAt(rs: seq<Revision>, c: nat)
    requires OneEach(RevisionKey, rs) && c < |rs|
    ensures CandidateIdsOf(rs, rs[c].id) == rs[c].candidateIds
  {
  }

  /** Unless one revision overtakes another, a pass leaves out only what is finished. */
  lemma NothingOvertaken(i: Inputs, env: Env, w: Ledger)
    requires Good(i, env, w) && Ahead(i, env, w) && NoOvertake(i, env)
    ensures DoneIsOver(i, env, w, ArtifactRevisions(i.revisions, w))
  {
    hide Settled, Stuck, Fine, Own, HasMaterial, MaterialOf, Outcome, OnChain, Inv, Holds, CandidateIdsOf;
    forall c: nat | c < |i.revisions| && Ready(i, c) && i.revisions[c].id in ArtifactRevisions(i.revisions, w)
      ensures Settled(env, At(i, w, c)) && Rests(env, Mat(i, c), At(i, w, c))
    {
      var x, e :| x in w.artifacts && e in w.evaluations && e.bundle == x.bundle
        && Holds(x, CandidateIdsOf(i.revisions, e.revisionId)) && e.revisionId == i.revisions[c].id;
      CandidateIdsAt(i.revisions, c);
      var a := ArtifactOwner(i, env, w, x);
      assert a >= c;
      if a > c { assert At(i, w, a) != NO_RECORDS; }
    }
  }

  // --- Schedules --------------------------------------------------------------------------

  /** The log before the worker first ran: inputs only, all of them valid. */
  predicate Fresh(log: seq<Event>) {
    Loads(InputsOf(log)) && LedgerOf(log) == NO_RECORDS
  }

  /** One pass after another, each killed after some number of posts. */
  function Passes(env: Env, log: seq<Event>, kills: seq<nat>): seq<Event>
    decreases |kills|
  {
    if kills == [] then log else Passes(env, After(log, Work(env, kills[0])), kills[1..])
  }

  /** The worker has nothing left to do. */
  predicate Quiet(env: Env, log: seq<Event>) { RunPass(env, log) == NOTHING }

  /** What holds of every log on the way from a fresh one. */
  predicate OnTheWay(i: Inputs, env: Env, log: seq<Event>) {
    InputsOf(log) == i && Loads(i) && Good(i, env, LedgerOf(log))
  }

  lemma EmptyHistory(rid: Id) ensures Own(NO_RECORDS, rid) == NO_RECORDS {}

  lemma FreshIsGood(env: Env, log: seq<Event>)
    requires Fresh(log)
    ensures OnTheWay(InputsOf(log), env, log) && Ahead(InputsOf(log), env, LedgerOf(log))
  {
    hide Settled, Stuck, Fine, Own, HasMaterial, MaterialOf, Shape, Next;
    var i := InputsOf(log);
    InputsOneEach(log);
    OneEachIsKnown(HandoffKey, i.handoffs);
    OneEachIsKnown(CandidateKey, i.candidates);
    OneEachIsKnown(RevisionKey, i.revisions);
    forall r | r in i.revisions ensures Own(NO_RECORDS, r.id) == NO_RECORDS { EmptyHistory(r.id); }
    forall a: nat | a < |i.revisions| ensures At(i, NO_RECORDS, a) == NO_RECORDS { EmptyHistory(i.revisions[a].id); }
  }

  lemma PassUnderway(i: Inputs, env: Env, w: Ledger)
    requires Good(i, env, w)
    ensures Underway(i, env, w, ArtifactRevisions(i.revisions, w))
  {
    hide Own, HasMaterial, MaterialOf, Shape, OnChain, ArtifactRevisions, CoversFrozen, Linked;
    OneEachIsKnown(RevisionKey, i.revisions);
    FrozenIsDone(i, env.words, i, w);
  }

  /** The posts of the next pass, and how many of them get through. */
  function Posts(i: Inputs, env: Env, w: Ledger): Step {
    ReviseAll(env, i, w, ArtifactRevisions(i.revisions, w), i.revisions)
  }

  function Through(i: Inputs, env: Env, w: Ledger, kill: nat): (k: nat)
    ensures k <= |Posts(i, env, w).posts|
  {
    if kill < |Posts(i, env, w).posts| then kill else |Posts(i, env, w).posts|
  }

  lemma PassStep(i: Inputs, env: Env, log: seq<Event>, kill: nat)
    requires OnTheWay(i, env, log)
    ensures var w, next := LedgerOf(log), After(log, Work(env, kill));
      OnTheWay(i, env, next) && LedgerOf(next) == NoteAll(w, Posts(i, env, w).posts[..Through(i, env, w, kill)])
  {
    hide Good, Underway, ArtifactRevisions, ReviseAll, KilledAt, Within, Inv, Legal;
    var w := LedgerOf(log);
    var posts := Posts(i, env, w).posts;
    var got := posts[..Through(i, env, w, kill)];
    assert Killed(posts, kill) == got;
    PassUnderway(i, env, w);
    var _ := KilledPass(i, env, w, ArtifactRevisions(i.revisions, w), |got|);
    PassIsSound(i, env, log);
    KilledIsLegal(i, env, log, kill);
    SoundInv(i, env, log);
    ReloadSeesPosts(i, env, log, got);
  }

  lemma PassIsSound(i: Inputs, env: Env, log: seq<Event>)
    requires OnTheWay(i, env, log)
    ensures Sound(i, env.words, log)
  {
  }

  lemma SoundInv(i: Inputs, env: Env, log: seq<Event>)
    requires Sound(i, env.words, log)
    ensures Inv(i, env.words, LedgerOf(log))
  {
  }

  /** Without overtaking, earlier revisions are ahead at the end of any schedule. */
  lemma {:induction false} ScheduleKeepsAhead(i: Inputs, env: Env, log: seq<Event>, kills: seq<nat>)
    requires OnTheWay(i, env, log) && Ahead(i, env, LedgerOf(log)) && NoOvertake(i, env)
    ensures OnTheWay(i, env, Passes(env, log, kills)) && Ahead(i, env, LedgerOf(Passes(env, log, kills)))
    decreases |kills|
  {
    hide Good, Ahead, NoOvertake, After, Underway, DoneIsOver, ArtifactRevisions, ReviseAll, Loads, Through;
    if kills != [] {
      var w := LedgerOf(log);
      var done := ArtifactRevisions(i.revisions, w);
      PassStep(i, env, log, kills[0]);
      PassUnderway(i, env, w);
      NothingOvertaken(i, env, w);
      AheadKept(i, env, w, done, Through(i, env, w, kills[0]));
      ScheduleKeepsAhead(i, env, After(log, Work(env, kills[0])), kills[1..]);
    }
  }

  /** When the worker is quiet, whatever it does not treat as done has reached its outcome, and rests there. */
  lemma QuietIsOutcome(i: Inputs, env: Env, log: seq<Event>, c: nat)
    requires OnTheWay(i, env, log) && Quiet(env, log) && c < |i.revisions| && Ready(i, c)
    requires i.revisions[c].id !in ArtifactRevisions(i.revisions, LedgerOf(log))
    ensures At(i, LedgerOf(log), c) == Outcome(env, Mat(i, c)) && Rests(env, Mat(i, c), Outcome(env, Mat(i, c)))
  {
    hide Own, HasMaterial, MaterialOf, Outcome, Underway, ArtifactRevisions, ReviseAll, Settled, Stuck, Fine, Shape, OnChain,
      Inv;
    var w := LedgerOf(log);
    PassUnderway(i, env, w);
    var b := KilledPass(i, env, w, ArtifactRevisions(i.revisions, w), 0);
    NoteNone(w);
    assert NOTHING.posts[..0] == [];
    GoodShape(i, env, w, c);
    StuckIsOutcome(env, Mat(i, c), At(i, w, c));
  }

  /** Crash-restart confluence: without overtaking, every schedule ends with the uninterrupted history. */
  lemma Confluence(env: Env, log: seq<Event>, kills: seq<nat>, c: nat)
    requires Fresh(log) && NoOvertake(InputsOf(log), env) && c < |InputsOf(log).revisions| && Ready(InputsOf(log), c)
    requires Quiet(env, Passes(env, log, kills))
    ensures At(InputsOf(log), LedgerOf(Passes(env, log, kills)), c) == Outcome(env, Mat(InputsOf(log), c))
    ensures Rests(env, Mat(InputsOf(log), c), Outcome(env, Mat(InputsOf(log), c)))
  {
    hide Own, HasMaterial, MaterialOf, Outcome, Stuck, Fine, Settled, Good, Ahead, NoOvertake, Passes, Quiet,
      ArtifactRevisions, OnChain;
    var i := InputsOf(log);
    var end := Passes(env, log, kills);
    FreshIsGood(env, log);
    ScheduleKeepsAhead(i, env, log, kills);
    NothingOvertaken(i, env, LedgerOf(end));
    if i.revisions[c].id in ArtifactRevisions(i.revisions, LedgerOf(end)) {
      StuckAtOutcome(i, env, LedgerOf(end), c);
    } else {
      QuietIsOutcome(i, env, end, c);
    }
  }

  lemma StuckAtOutcome(i: Inputs, env: Env, w: Ledger, c: nat)
    requires Good(i, env, w) && c < |i.revisions| && Ready(i, c) && Stuck(env, Mat(i, c), At(i, w, c))
    ensures At(i, w, c) == Outcome(env, Mat(i, c))
  {
    hide Own, HasMaterial, MaterialOf, Outcome, Shape, OnChain, Inv, Stuck;
    GoodShape(i, env, w, c);
    StuckIsOutcome(env, Mat(i, c), At(i, w, c));
  }

  // --- A revision that cannot be read -----------------------------------------------------

  /** Its candidates are in the log, a handoff behind them is not: the pass raises when it gets here. */
  predicate Lacking(i: Inputs, b: nat)
    requires b < |i.revisions|
  {
    !Ready(i, b) && !Skips(i, {}, i.revisions[b])
  }

  lemma LackingRaises(i: Inputs, env: Env, w: Ledger, done: set<Id>, b: nat)
    requires Good(i, env, w) && b < |i.revisions| && Lacking(i, b) && i.revisions[b].id !in done
    ensures ReviseOne(env, i, w, done, i.revisions[b]) == Step([], false)
  {
    hide Inv, HasMaterial, OnChain, MaterialOf, Own;
    var r := i.revisions[b];
    assert r in i.revisions;
    assert Skips(i, done, r) ==> Skips(i, {}, r);
    SkippedPostsNothing(env, i, w, done, r);
  }

  /** A lacking revision has no evaluation, so no artifact closes it. */
  lemma LackingIsNotDone(i: Inputs, env: Env, w: Ledger, b: nat)
    requires Good(i, env, w) && b < |i.revisions| && Lacking(i, b)
    ensures i.revisions[b].id !in ArtifactRevisions(i.revisions, w)
    ensures At(i, w, b) == NO_RECORDS
  {
    hide HasMaterial, OnChain, MaterialOf, Shape, Linked, Skips, CandidateIdsOf, Holds;
    var r := i.revisions[b];
    assert r in i.revisions && HistoryOk(i, env.words, r, Own(w, r.id));
    OwnMembers(w, r.id);
  }

  /** A pass changes nothing from the first lacking revision on, and does not come to its end. */
  lemma {:induction false} LackingStopsThePass(
      i: Inputs, env: Env, w: Ledger, done: set<Id>, k: nat, b: nat, kill: nat)
    requires Underway(i, env, w, done) && k <= b < |i.revisions| && Lacking(i, b) && i.revisions[b].id !in done
    requires kill <= |ReviseAll(env, i, w, done, i.revisions[k..]).posts|
    ensures !ReviseAll(env, i, w, done, i.revisions[k..]).ok
    ensures var after := NoteAll(w, ReviseAll(env, i, w, done, i.revisions[k..]).posts[..kill]);
      forall c: nat | b <= c < |i.revisions| :: At(i, after, c) == At(i, w, c)
    decreases b - k, 1
  {
    hide ReviseOne, ReviseAll, NoteAll, Good, CoversFrozen, DoneAfter, Lacking, Own, Finished, HasMaterial, MaterialOf;
    var turn := ReviseOne(env, i, w, done, i.revisions[k]);
    var whole := ReviseAll(env, i, w, done, i.revisions[k..]);
    ReviseAllUnfolds(env, i, w, done, i.revisions, k);
    if k == b {
      LackingRaises(i, env, w, done, b);
      assert whole.posts[..kill] == [];
      NoteNone(w);
    } else if kill < |turn.posts| || !turn.ok {
      assert whole.posts[..kill] == turn.posts[..kill];
      PartEffect(i, env, w, done, k, kill);
      if turn.ok { LackingStopsAfter(i, env, w, done, k, b); }
    } else {
      LackingStopsAfter(i, env, w, done, k, b);
      var mid, next := NoteAll(w, turn.posts), DoneAfter(done, i.revisions[k], turn.posts);
      var rest := ReviseAll(env, i, mid, next, i.revisions[k + 1..]);
      LackingStopsThePass(i, env, mid, next, k + 1, b, kill - |turn.posts|);
      assert whole.posts[..kill] == turn.posts + rest.posts[..kill - |turn.posts|];
      NoteAllConcat(w, turn.posts, rest.posts[..kill - |turn.posts|]);
    }
  }

  /** Past a whole turn the pass is still on its way to the lacking revision. */
  lemma LackingStopsAfter(i: Inputs, env: Env, w: Ledger, done: set<Id>, k: nat, b: nat)
    requires Underway(i, env, w, done) && k < b < |i.revisions| && Lacking(i, b) && i.revisions[b].id !in done
    requires ReviseOne(env, i, w, done, i.revisions[k]).ok
    ensures var turn := ReviseOne(env, i, w, done, i.revisions[k]);
      var mid, next := NoteAll(w, turn.posts), DoneAfter(done, i.revisions[k], turn.posts);
      && Underway(i, env, mid, next) && i.revisions[b].id !in next
      && (forall c: nat | b <= c < |i.revisions| :: At(i, mid, c) == At(i, w, c))
      && !ReviseAll(env, i, mid, next, i.revisions[k + 1..]).ok
    decreases b - k, 0
  {
    hide ReviseOne, ReviseAll, NoteAll, Underway, DoneAfter, Lacking, Own, Finished, HasMaterial, MaterialOf;
    var turn := ReviseOne(env, i, w, done, i.revisions[k]);
    var mid, next := NoteAll(w, turn.posts), DoneAfter(done, i.revisions[k], turn.posts);
    WholeEffect(i, env, w, done, k);
    DoneGrows(done, i.revisions[k], turn.posts);
    UnderwayDistinct(i, env, w, done);
    assert RevisionKey(i.revisions[b]) != RevisionKey(i.revisions[k]);
    LackingStopsThePass(i, env, mid, next, k + 1, b, 0);
  }

  /** Behind a lacking revision every later one waits: no schedule gives it a record, and none comes to rest. */
  lemma {:induction false} LaterOnesWait(i: Inputs, env: Env, log: seq<Event>, kills: seq<nat>, b: nat)
    requires OnTheWay(i, env, log) && b < |i.revisions| && Lacking(i, b)
    requires forall c: nat | b <= c < |i.revisions| :: At(i, LedgerOf(log), c) == NO_RECORDS
    ensures var end := Passes(env, log, kills);
      && OnTheWay(i, env, end) && !Quiet(env, end)
      && forall c: nat | b <= c < |i.revisions| :: At(i, LedgerOf(end), c) == NO_RECORDS
    decreases |kills|
  {
    hide Good, After, CoversFrozen, ReviseAll, Loads, Through, Lacking, ArtifactRevisions, NoteAll, Own;
    var w := LedgerOf(log);
    var done := ArtifactRevisions(i.revisions, w);
    assert i.revisions[0..] == i.revisions;
    PassUnderway(i, env, w);
    LackingIsNotDone(i, env, w, b);
    if kills == [] {
      LackingStopsThePass(i, env, w, done, 0, b, 0);
    } else {
      PassStep(i, env, log, kills[0]);
      LackingStopsThePass(i, env, w, done, 0, b, Through(i, env, w, kills[0]));
      LaterOnesWait(i, env, After(log, Work(env, kills[0])), kills[1..], b);
    }
  }

  /** From a fresh log: one missing handoff, and no later revision is ever evaluated. */
  lemma MissingHandoffBlocks(env: Env, log: seq<Event>, kills: seq<nat>, b: nat, c: nat)
    requires Fresh(log) && b <= c < |InputsOf(log).revisions| && Lacking(InputsOf(log), b)
    ensures At(InputsOf(log), LedgerOf(Passes(env, log, kills)), c) == NO_RECORDS
    ensures !Quiet(env, Passes(env, log, kills))
  {
    hide Good, Lacking, Own;
    var i := InputsOf(log);
    FreshIsGood(env, log);
    forall a: nat | a < |i.revisions| ensures At(i, LedgerOf(log), a) == NO_RECORDS { EmptyHistory(i.revisions[a].id); }
    LaterOnesWait(i, env, log, kills, b);
  }
}
