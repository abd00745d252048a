/**
 One revision's history, from its first record to the last: the uninterrupted history, what a turn
 killed anywhere keeps of it, and what a whole turn reaches.
 */
module Histories {
  import opened Sequences
  import opened Records
  import opened Evaluator
  import opened Curriculum
  import opened Artifacts
  import opened Worker
  import opened Lifecycle
  import opened Refinement
  import opened Guarantees

  // --- The uninterrupted history ----------------------------------------------------------

  /** The protocol's first `n` records after `own`, fewer where it stops. */
  function Chain(env: Env, m: Material, own: Ledger, n: nat): Ledger
    requires m.Valid()
    decreases n
  {
    if n == 0 then own
    else match Next(env, m, own)
      case None => own
      case Some(ev) => Chain(env, m, Note(own, ev), n - 1)
  }

  /** The history of a revision that was never interrupted. */
  function Outcome(env: Env, m: Material): Ledger
    requires m.Valid()
  {
    Chain(env, m, NO_RECORDS, 8)
  }

  predicate Stuck(env: Env, m: Material, own: Ledger)
    requires m.Valid()
  {
    Next(env, m, own).None?
  }

  /** The next turn does not raise; a frozen history has no next turn. */
  predicate Fine(env: Env, m: Material, own: Ledger)
    requires m.Valid()
  {
    own.artifacts == [] ==> Advance(env, m.r, m.cs, m.sources, own).ok
  }

  /** There is nothing left to do, and finding that out does not raise. */
  predicate Rests(env: Env, m: Material, own: Ledger)
    requires m.Valid()
  {
    Stuck(env, m, own) && Fine(env, m, own)
  }

  predicate OnChain(env: Env, m: Material, own: Ledger)
    requires m.Valid()
  {
    own == Chain(env, m, NO_RECORDS, Size(own))
  }

  lemma {:induction false} ChainExtends(env: Env, m: Material, own: Ledger, n: nat, ev: Event)
    requires m.Valid() && Next(env, m, Chain(env, m, own, n)) == Some(ev)
    ensures Chain(env, m, own, n + 1) == Note(Chain(env, m, own, n), ev)
    decreases n
  {
    hide Next;
    if n > 0 {
      var first := Next(env, m, own);
      if first.Some? { ChainExtends(env, m, Note(own, first.value), n - 1, ev); }
    } else {
      assert Chain(env, m, Note(own, ev), 0) == Note(own, ev);
    }
  }

  lemma {:induction false} ChainStops(env: Env, m: Material, own: Ledger, n: nat, k: nat)
    requires m.Valid() && Stuck(env, m, Chain(env, m, own, n)) && n <= k
    ensures Chain(env, m, own, k) == Chain(env, m, own, n)
    decreases n
  {
    hide Next;
    if n > 0 && Next(env, m, own).Some? {
      ChainStops(env, m, Note(own, Next(env, m, own).value), n - 1, k - 1);
    }
  }

  lemma NextStaysOnChain(env: Env, m: Material, own: Ledger)
    requires m.Valid() && Shape(env.words, m, own) && OnChain(env, m, own) && Next(env, m, own).Some?
    ensures OnChain(env, m, Note(own, Next(env, m, own).value))
  {
    hide Next, Shape;
    NextKind(env, m, own);
    ChainExtends(env, m, NO_RECORDS, Size(own), Next(env, m, own).value);
  }

  /** A history that can go no further is the uninterrupted one. */
  lemma StuckIsOutcome(env: Env, m: Material, own: Ledger)
    requires m.Valid() && Shape(env.words, m, own) && OnChain(env, m, own) && Stuck(env, m, own)
    ensures own == Outcome(env, m)
  {
    hide Next, Shape;
    HistoryBound(env.words, m, own);
    ChainStops(env, m, NO_RECORDS, Size(own), 8);
  }

  lemma {:induction false} StuckFollows(env: Env, m: Material, own: Ledger, posts: seq<Event>)
    requires m.Valid() && Stuck(env, m, own) && Follows(env, m, own, posts)
    ensures NoteAll(own, posts) == own
    ensures forall ev | ev in posts :: ev.HandoffPosted?
    decreases |posts|
  {
    hide Next;
    if posts != [] {
      assert posts == [posts[0]] + posts[1..];
      StuckFollows(env, m, Note(own, posts[0]), posts[1..]);
    }
  }

  /** With one plan, practised, the next record is no run. */
  lemma NextAfterPractice(env: Env, m: Material, own: Ledger)
    requires m.Valid() && Settled(env, own) && |own.plans| == 1 && Next(env, m, own).Some?
    ensures var after := Note(own, Next(env, m, own).value);
      after.evaluations != [] && after.plans != [] && after.plans[0] == own.plans[0] && after.runs == own.runs
  {
    hide Judge, BroadPlan, PracticeCases, Practised, NextRun, Freeze, Guarded, ValidSnapshot;
  }

  /** With two plans, the next record is a run of the second. */
  lemma NextOfSecondPlan(env: Env, m: Material, own: Ledger)
    requires m.Valid() && Shape(env.words, m, own) && |own.plans| == 2 && Next(env, m, own).Some?
    ensures Next(env, m, own).value.PracticeCompleted?
    ensures RunsOf(own.runs + [Next(env, m, own).value.run], own.plans[0].id) == RunsOf(own.runs, own.plans[0].id)
  {
    hide Judge, BroadPlan, PracticeCases, RunsOf, BootstrapDataset, Freezes, NextRun, DistinctRuns, Practised, RunOf;
    PlansOfShape(env.words, m, own);
    NextRunIsNew(env, own.plans[1], own.plans[1].tasks, own.runs);
    var x := Next(env, m, own).value.run;
    RunNamesPlan(own.plans[1], x);
    RunsOfAppend(own.runs, x, own.plans[0].id);
    assert RunsOf(own.runs, own.plans[0].id) + [] == RunsOf(own.runs, own.plans[0].id);
  }

  /** Once the first practice is over it stays over. */
  lemma NextKeepsSettled(env: Env, m: Material, own: Ledger)
    requires m.Valid() && Shape(env.words, m, own) && Settled(env, own) && Next(env, m, own).Some?
    ensures Settled(env, Note(own, Next(env, m, own).value))
  {
    hide Shape, Next, RunsOf, NextRun;
    if |own.plans| == 1 {
      NextAfterPractice(env, m, own);
    } else {
      ShapeBounds(env.words, m, own);
      NextOfSecondPlan(env, m, own);
    }
  }

  lemma ShapeBounds(words: Candidate -> Words, m: Material, own: Ledger)
    requires m.Valid() && Shape(words, m, own)
    ensures |own.plans| <= |own.evaluations| <= 2
    ensures |own.plans| == 2 ==> Practised(own.plans[0], own.runs)
    ensures |own.evaluations| == 2 ==> Judging(own)
    ensures own.evaluations == [] ==> own == NO_RECORDS
  {
    hide Judge, BroadPlan, PracticeCases, RunsOf, BootstrapDataset, Freezes, DistinctRuns, Practised, RunOf;
    if own.runs != [] { assert own.runs[0] in own.runs; }
  }

  lemma RunNamesPlan(p: Plan, x: PracticeRun) requires RunOf(p, x) ensures x.curriculumId == p.id {}

  /** What holds of a history after any part of a turn, in terms of what it was before. */
  predicate Kept(env: Env, m: Material, before: Ledger, after: Ledger)
    requires m.Valid()
  {
    && (Settled(env, before) ==> Settled(env, after))
    && (Stuck(env, m, before) ==> after == before)
    && (!Judging(before) ==> |after.evaluations| <= 1)
    && Size(before) <= Size(after)
  }

  /** What a whole turn adds to that. */
  predicate Finished(env: Env, m: Material, before: Ledger, after: Ledger)
    requires m.Valid()
  {
    Kept(env, m, before, after) && Settled(env, after) && (Settled(env, before) ==> Rests(env, m, after))
  }

  lemma {:induction false} FollowsKeepsSettled(env: Env, m: Material, own: Ledger, posts: seq<Event>)
    requires m.Valid() && Shape(env.words, m, own) && Settled(env, own) && Follows(env, m, own, posts)
    ensures Settled(env, NoteAll(own, posts))
    decreases |posts|
  {
    hide Next, Shape, Settled;
    if posts != [] {
      if posts[0].HandoffPosted? {
        assert Note(own, posts[0]) == own;
      } else {
        NextKeepsShape(env, m, own);
        NextKeepsSettled(env, m, own);
      }
      FollowsKeepsSettled(env, m, Note(own, posts[0]), posts[1..]);
    }
  }

  lemma {:induction false} RecordsGrow(w: Ledger, posts: seq<Event>)
    ensures var after := NoteAll(w, posts);
      && Size(w) <= Size(after) && |w.evaluations| <= |after.evaluations|
      && (forall e | e in w.evaluations :: e in after.evaluations)
      && (forall a | a in w.artifacts :: a in after.artifacts)
    decreases |posts|
  {
    if posts != [] { RecordsGrow(Note(w, posts[0]), posts[1..]); }
  }

  lemma {:induction false} FollowsPrefix(env: Env, m: Material, own: Ledger, posts: seq<Event>, k: nat)
    requires m.Valid() && Follows(env, m, own, posts) && k <= |posts|
    ensures Follows(env, m, own, posts[..k])
    decreases |posts|
  {
    hide Next;
    if k > 0 {
      FollowsPrefix(env, m, Note(own, posts[0]), posts[1..], k - 1);
      assert posts[..k][1..] == posts[1..][..k - 1];
    }
  }

  /** A turn killed anywhere. */
  lemma PartOfTurn(env: Env, m: Material, own: Ledger, k: nat)
    requires m.Valid() && Shape(env.words, m, own) && own.artifacts == []
    requires k <= |Advance(env, m.r, m.cs, m.sources, own).posts|
    ensures var posts := Advance(env, m.r, m.cs, m.sources, own).posts[..k];
      Follows(env, m, own, posts) && Kept(env, m, own, NoteAll(own, posts))
  {
    hide Shape, Next, Settled, Judging, Follows, Advance;
    AdvanceFollows(env, m, own);
    var posts := Advance(env, m.r, m.cs, m.sources, own).posts;
    FollowsPrefix(env, m, own, posts, k);
    if Settled(env, own) { FollowsKeepsSettled(env, m, own, posts[..k]); }
    if Stuck(env, m, own) { StuckFollows(env, m, own, posts[..k]); }
    RecordsGrow(own, posts[..k]);
    assert posts == posts[..k] + posts[k..];
    NoteAllConcat(own, posts[..k], posts[k..]);
    RecordsGrow(NoteAll(own, posts[..k]), posts[k..]);
  }

  lemma UnansweredIsStuck(env: Env, m: Material, own: Ledger)
    requires m.Valid() && Shape(env.words, m, own) && Settled(env, own) && !Judging(own)
    ensures Stuck(env, m, own)
  {
    hide Judge, BroadPlan, PracticeCases, RunsOf, BootstrapDataset, Freezes, NextRun, Frozen, RunOf, DistinctRuns, Practised;
  }

  /** A frozen history is over. */
  lemma FrozenIsOver(env: Env, m: Material, own: Ledger)
    requires m.Valid() && Shape(env.words, m, own) && own.artifacts != []
    ensures Settled(env, own) && Rests(env, m, own) && |own.evaluations| == 2
  {
    hide Judge, BroadPlan, PracticeCases, RunsOf, BootstrapDataset, Freezes, NextRun, Frozen, RunOf, DistinctRuns, Practised;
  }

  predicate HasRecord(posts: seq<Event>) { exists ev | ev in posts :: !ev.HandoffPosted? }

  /** Practice that posts anything without raising posts a run. */
  lemma {:induction false} PracticeRecords(env: Env, p: Plan, tasks: seq<Task>, answered: set<Id>)
    ensures var s := Practise(env, p, tasks, answered); s.ok && s.posts != [] ==> HasRecord(s.posts)
  {
    hide Closes;
    if tasks != [] && Practise(env, p, tasks, answered).ok {
      var turn := PractiseTask(env, p, tasks[0], answered);
      var rest := Practise(env, p, tasks[1..], answered).posts;
      PracticeRecords(env, p, tasks[1..], answered);
      var s := Practise(env, p, tasks, answered);
      assert s.posts == turn.posts + rest;
      if turn != NOTHING {
        assert turn.posts[1] in s.posts;
      } else if rest != [] {
        var ev :| ev in rest && !ev.HandoffPosted?;
        assert ev in s.posts;
      }
    }
  }

  /** A whole turn on a history that can go no further posts nothing. */
  lemma StuckTurnIsQuiet(env: Env, m: Material, own: Ledger)
    requires m.Valid() && Shape(env.words, m, own) && own.artifacts == [] && Stuck(env, m, own)
    requires Advance(env, m.r, m.cs, m.sources, own).ok
    ensures Advance(env, m.r, m.cs, m.sources, own) == NOTHING
  {
    hide Shape, Next, Follows, Practise, Freeze, Evaluate, BroadPlan, Dataset, ValidSnapshot, FindEvaluation, FindPlan,
      Guarded, Updated;
    var s := Advance(env, m.r, m.cs, m.sources, own);
    AdvanceFollows(env, m, own);
    StuckFollows(env, m, own, s.posts);
    var found := FindEvaluation(own.evaluations, m.r.id, OfDataset(Dataset(m.r, own, m.sources)));
    if s.posts != [] { assert s.posts[0] in s.posts; }
    if found.Some? && found.value.decision == NeedsExperiment {
      var plan := FindPlan(own.plans, found.value.id);
      if plan.Some? { PracticeRecords(env, plan.value, plan.value.tasks, Answered(own.runs, plan.value.id)); }
    }
  }

  // --- Turns taken again ------------------------------------------------------------------

  /** What a step does to the runs: it only adds some. */
  lemma {:induction false} RunsGrow(w: Ledger, posts: seq<Event>)
    ensures w.runs <= NoteAll(w, posts).runs
    decreases |posts|
  {
    if posts != [] { RunsGrow(Note(w, posts[0]), posts[1..]); }
  }

  lemma AnswersGrow(p: Plan, xs: seq<PracticeRun>, ys: seq<PracticeRun>)
    requires xs <= ys
    ensures Answered(xs, p.id) <= Answered(ys, p.id)
  {
    RunsOfMembers(xs, p.id);
    RunsOfMembers(ys, p.id);
    forall x | x in RunsOf(xs, p.id) ensures x in RunsOf(ys, p.id) {
      var k :| 0 <= k < |xs| && xs[k] == x;
      assert ys[k] == x;
    }
  }

  /** Practice that did not raise does not raise on fewer open tasks. */
  lemma {:induction false} PractiseAgain(env: Env, p: Plan, tasks: seq<Task>, answered: set<Id>, more: set<Id>)
    requires answered <= more && Practise(env, p, tasks, answered).ok
    ensures Practise(env, p, tasks, more).ok
  {
    hide Closes;
    if tasks != [] {
      assert PractiseTask(env, p, tasks[0], answered).ok;
      PractiseAgain(env, p, tasks[1..], answered, more);
    }
  }

  /** An answer that does not close its run makes practice raise. */
  lemma {:induction false} BlockedRaises(env: Env, p: Plan, tasks: seq<Task>, runs: seq<PracticeRun>)
    requires Blocked(env, p, tasks, runs)
    ensures !Practise(env, p, tasks, Answered(runs, p.id)).ok
  {
    hide Closes, Answered;
    var t :| t in tasks && t.id !in Answered(runs, p.id) && env.runner(p, t).Some?
      && CompleteRun(BeginRun(p, t), env.runner(p, t).value).Raised?;
    if tasks[0] != t {
      assert t in tasks[1..];
      BlockedRaises(env, p, tasks[1..], runs);
    }
  }

  /** The evaluation a turn goes on from. */
  predicate GoesOnFrom(own: Ledger, e: Evaluation) {
    (own.evaluations == [e] && !Judging(own)) || (|own.evaluations| == 2 && own.evaluations[1] == e)
  }

  lemma TurnIsAfter(env: Env, m: Material, own: Ledger, e: Evaluation)
    requires m.Valid() && Shape(env.words, m, own) && own.artifacts == [] && GoesOnFrom(own, e)
    ensures Advance(env, m.r, m.cs, m.sources, own) == AfterEvaluation(env, m.r, m.cs, own, e)
  {
    hide Shape, Evaluate, AfterEvaluation, Dataset, FindEvaluation, Next, Judging;
    TurnFinds(env, m, own);
  }

  /** The plan that practice is on, before and after a step that practises it. */
  lemma PlanAfter(env: Env, m: Material, own: Ledger, e: Evaluation)
    requires m.Valid() && Shape(env.words, m, own) && own.artifacts == [] && GoesOnFrom(own, e) && e.decision == NeedsExperiment
    requires FindPlan(own.plans, e.id).Some? || BroadPlan(m.r, m.cs, e, env.words).Ok?
    ensures var found := FindPlan(own.plans, e.id);
      var p := if found.Some? then found.value else BroadPlan(m.r, m.cs, e, env.words).value;
      var s := AfterEvaluation(env, m.r, m.cs, own, e);
      var after := NoteAll(own, s.posts);
      && s.ok == Practise(env, p, p.tasks, Answered(own.runs, p.id)).ok
      && own.runs <= after.runs
      && Shape(env.words, m, after) && after.artifacts == [] && after.evaluations == own.evaluations
      && FindPlan(after.plans, e.id) == Some(p) && Current(after, p)
      && NextRun(env, p, p.tasks, after.runs).None? && (!s.ok ==> Blocked(env, p, p.tasks, after.runs))
  {
    hide Judge, BroadPlan, Practise, Practised, PracticeCases, RunsOf, BootstrapDataset, Freezes, NextRun, RunOf,
      DistinctRuns, PlanFrom, NoteAll, Follows, Blocked, Answered;
    PlansOfShape(env.words, m, own);
    PlanLookup(env, m, own, e);
    var ps := own.plans;
    if |ps| == |own.evaluations| {
      var p := ps[|ps| - 1];
      assert ps == if |ps| == 1 then [p] else ps;
      PlanPractised(env, m, own, p, e);
      var posts := Practise(env, p, p.tasks, Answered(own.runs, p.id)).posts;
      FollowsKeepsShape(env, m, own, posts);
      RunsGrow(own, posts);
    } else {
      var p := BroadPlan(m.r, m.cs, e, env.words).value;
      var planned := Note(own, CurriculumPlanned(p));
      assert Next(env, m, own) == Some(CurriculumPlanned(p));
      NextKeepsShape(env, m, own);
      PlansOfShape(env.words, m, planned);
      assert Current(planned, p);
      PlanPractised(env, m, planned, p, e);
      var posts := Practise(env, p, p.tasks, Answered(own.runs, p.id)).posts;
      FollowsKeepsShape(env, m, planned, posts);
      RunsGrow(planned, posts);
      NoteOne(own, CurriculumPlanned(p));
      NoteAllConcat(own, [CurriculumPlanned(p)], posts);
      PlanLookup(env, m, NoteAll(planned, posts), e);
    }
  }

  /** Going on from a judged evaluation without raising can be done again. */
  lemma AfterEvaluationAgain(env: Env, m: Material, own: Ledger, e: Evaluation)
    requires m.Valid() && Shape(env.words, m, own) && own.artifacts == []
    requires |own.evaluations| == 2 && own.evaluations[1] == e && AfterEvaluation(env, m.r, m.cs, own, e).ok
    ensures var after := NoteAll(own, AfterEvaluation(env, m.r, m.cs, own, e).posts);
      after.artifacts == [] ==> AfterEvaluation(env, m.r, m.cs, after, e).ok
  {
    hide Shape, BroadPlan, Practise, FindPlan, Answered, NextRun, Blocked, FreezeStep;
    var s := AfterEvaluation(env, m.r, m.cs, own, e);
    if e.decision == NeedsExperiment {
      PlanAfter(env, m, own, e);
      var found := FindPlan(own.plans, e.id);
      var p := if found.Some? then found.value else BroadPlan(m.r, m.cs, e, env.words).value;
      var after := NoteAll(own, s.posts);
      AnswersGrow(p, own.runs, after.runs);
      PractiseAgain(env, p, p.tasks, Answered(own.runs, p.id), Answered(after.runs, p.id));
    } else if e.decision == Accepted {
      FreezeAgain(env, m, own);
    } else {
      NoteNone(own);
    }
  }

  lemma FreezeAgain(env: Env, m: Material, own: Ledger)
    requires own.artifacts == [] && FreezeStep(env, m.r, m.cs, own).ok
    ensures var after := NoteAll(own, FreezeStep(env, m.r, m.cs, own).posts);
      after.artifacts == [] ==> FreezeStep(env, m.r, m.cs, after).ok
  {
    hide ValidSnapshot, Freeze, Guarded, Updated;
    var s := FreezeStep(env, m.r, m.cs, own);
    if s.posts == [] { NoteNone(own); } else { NoteOne(own, s.posts[0]); }
  }

  /** A whole turn past the first practice can be taken again. */
  lemma TurnAgain(env: Env, m: Material, own: Ledger)
    requires m.Valid() && Shape(env.words, m, own) && own.artifacts == [] && Settled(env, own)
    requires Advance(env, m.r, m.cs, m.sources, own).ok
    ensures Fine(env, m, NoteAll(own, Advance(env, m.r, m.cs, m.sources, own).posts))
  {
    hide Shape, Next, NextRun, Practised, Follows, AfterEvaluation, Evaluate, Dataset, FindEvaluation, NoteAll;
    var s := Advance(env, m.r, m.cs, m.sources, own);
    var after := NoteAll(own, s.posts);
    AdvanceFollows(env, m, own);
    FollowsKeepsShape(env, m, own, s.posts);
    EvaluationBound(env.words, m, own);
    TurnFinds(env, m, own);
    if !Judging(own) {
      UnansweredIsStuck(env, m, own);
      StuckFollows(env, m, own, s.posts);
    } else if |own.evaluations| == 2 {
      JudgedTurnAgain(env, m, own, own.evaluations[1], after);
    } else {
      var e := Judge(m, Dataset(m.r, own, m.sources)).value;
      var mid := Note(own, Evaluated(e));
      assert Next(env, m, own) == Some(Evaluated(e));
      NextKeepsShape(env, m, own);
      NoteOne(own, Evaluated(e));
      NoteAllConcat(own, [Evaluated(e)], AfterEvaluation(env, m.r, m.cs, mid, e).posts);
      JudgedTurnAgain(env, m, mid, e, after);
    }
  }

  lemma JudgedTurnAgain(env: Env, m: Material, own: Ledger, e: Evaluation, after: Ledger)
    requires m.Valid() && Shape(env.words, m, own) && own.artifacts == []
    requires |own.evaluations| == 2 && own.evaluations[1] == e && AfterEvaluation(env, m.r, m.cs, own, e).ok
    requires after == NoteAll(own, AfterEvaluation(env, m.r, m.cs, own, e).posts) && Shape(env.words, m, after)
    ensures Fine(env, m, after)
  {
    hide Shape, AfterEvaluation, NoteAll, Follows, Next, Advance;
    AfterEvaluationAgain(env, m, own, e);
    AfterEvaluationFollows(env, m, own, e);
    if after.artifacts == [] { TurnIsAfter(env, m, after, e); }
  }

  /** A whole turn: the first practice is over after it, and if it was before, everything is. */
  lemma WholeTurn(env: Env, m: Material, own: Ledger)
    requires m.Valid() && Shape(env.words, m, own) && own.artifacts == []
    requires Advance(env, m.r, m.cs, m.sources, own).ok
    ensures var posts := Advance(env, m.r, m.cs, m.sources, own).posts;
      Follows(env, m, own, posts) && Finished(env, m, own, NoteAll(own, posts))
  {
    hide Shape, Next, NextRun, Practised, Follows, Advance, Fine;
    AdvanceFollows(env, m, own);
    var posts := Advance(env, m.r, m.cs, m.sources, own).posts;
    PartOfTurn(env, m, own, |posts|);
    assert posts[..|posts|] == posts;
    if Settled(env, own) {
      TurnAgain(env, m, own);
      if !Judging(own) { UnansweredIsStuck(env, m, own); }
    }
  }

  // --- Turns that raise -------------------------------------------------------------------

  /** Going on from an evaluation and raising leaves a history that is stuck, and raises again. */
  lemma AfterEvaluationRaises(env: Env, m: Material, own: Ledger, e: Evaluation)
    requires m.Valid() && Shape(env.words, m, own) && own.artifacts == [] && GoesOnFrom(own, e)
    requires !AfterEvaluation(env, m.r, m.cs, own, e).ok
    ensures var after := NoteAll(own, AfterEvaluation(env, m.r, m.cs, own, e).posts);
      && Shape(env.words, m, after) && after.artifacts == [] && GoesOnFrom(after, e)
      && Stuck(env, m, after) && !AfterEvaluation(env, m.r, m.cs, after, e).ok
  {
    hide BroadPlan, Practise, FindPlan, Answered, NextRun, FreezeStep, Shape, Next, Practised, Blocked;
    NoteNone(own);
    if e.decision == NeedsExperiment {
      if FindPlan(own.plans, e.id).None? && BroadPlan(m.r, m.cs, e, env.words).Raised? {
        UnplannedIsStuck(env, m, own, e);
      } else {
        PlanAfter(env, m, own, e);
        var found := FindPlan(own.plans, e.id);
        var p := if found.Some? then found.value else BroadPlan(m.r, m.cs, e, env.words).value;
        var after := NoteAll(own, AfterEvaluation(env, m.r, m.cs, own, e).posts);
        ShapeBounds(env.words, m, after);
        BlockedRaises(env, p, p.tasks, after.runs);
        BlockedIsStuck(env, m, after, p);
      }
    } else {
      UnfrozenIsStuck(env, m, own, e);
    }
  }

  lemma UnplannedIsStuck(env: Env, m: Material, own: Ledger, e: Evaluation)
    requires m.Valid() && Shape(env.words, m, own) && own.artifacts == [] && GoesOnFrom(own, e)
    requires e.decision == NeedsExperiment && FindPlan(own.plans, e.id).None? && BroadPlan(m.r, m.cs, e, env.words).Raised?
    ensures Stuck(env, m, own)
  {
    hide Judge, BroadPlan, Practised, PracticeCases, RunsOf, BootstrapDataset, Freezes, NextRun, RunOf, DistinctRuns, FindPlan;
    PlanLookup(env, m, own, e);
  }

  lemma BlockedIsStuck(env: Env, m: Material, own: Ledger, p: Plan)
    requires m.Valid() && Shape(env.words, m, own) && own.artifacts == [] && Current(own, p)
    requires Blocked(env, p, p.tasks, own.runs) && NextRun(env, p, p.tasks, own.runs).None?
    ensures Stuck(env, m, own) && !Practised(p, own.runs)
  {
    hide Shape, Next, Answered, NextRun, Closes;
    var t :| t in p.tasks && t.id !in Answered(own.runs, p.id) && env.runner(p, t).Some?
      && CompleteRun(BeginRun(p, t), env.runner(p, t).value).Raised?;
    NextIsRun(env, m, own, p, t);
    assert t.id in TaskIds(p);
  }

  lemma UnfrozenIsStuck(env: Env, m: Material, own: Ledger, e: Evaluation)
    requires m.Valid() && Shape(env.words, m, own) && own.artifacts == [] && GoesOnFrom(own, e)
    requires e.decision == Accepted && !FreezeStep(env, m.r, m.cs, own).ok
    ensures FreezeStep(env, m.r, m.cs, own).posts == [] && Stuck(env, m, own)
  {
    hide Judge, BroadPlan, PracticeCases, RunsOf, BootstrapDataset, Freezes, NextRun, RunOf, DistinctRuns,
      ValidSnapshot, Freeze, Guarded, Updated;
    PlansOfShape(env.words, m, own);
  }

  /** A turn that raises leaves a history that is stuck, and whose next turn raises too. */
  lemma RaiseAgain(env: Env, m: Material, own: Ledger)
    requires m.Valid() && Shape(env.words, m, own) && own.artifacts == []
    requires !Advance(env, m.r, m.cs, m.sources, own).ok
    ensures var after := NoteAll(own, Advance(env, m.r, m.cs, m.sources, own).posts);
      Stuck(env, m, after) && !Fine(env, m, after)
  {
    hide Shape, Next, NextRun, Practised, AfterEvaluation, Evaluate, Dataset, FindEvaluation, NoteAll, Judging;
    TurnFinds(env, m, own);
    EvaluationBound(env.words, m, own);
    var es, cases := own.evaluations, Dataset(m.r, own, m.sources);
    if |es| == 2 {
      RaisedTurnAgain(env, m, own, es[1]);
    } else if |es| == 1 && !Judging(own) {
      assert es == [es[0]];
      RaisedTurnAgain(env, m, own, es[0]);
    } else if Judge(m, cases).Ok? {
      var e := Judge(m, cases).value;
      var mid := Note(own, Evaluated(e));
      NextKeepsShape(env, m, own);
      NotJudging(own, e);
      NoteOne(own, Evaluated(e));
      NoteAllConcat(own, [Evaluated(e)], AfterEvaluation(env, m.r, m.cs, mid, e).posts);
      RaisedTurnAgain(env, m, mid, e);
    } else {
      NoteNone(own);
    }
  }

  lemma RaisedTurnAgain(env: Env, m: Material, own: Ledger, e: Evaluation)
    requires m.Valid() && Shape(env.words, m, own) && own.artifacts == [] && GoesOnFrom(own, e)
    requires !AfterEvaluation(env, m.r, m.cs, own, e).ok
    ensures var after := NoteAll(own, AfterEvaluation(env, m.r, m.cs, own, e).posts);
      Stuck(env, m, after) && !Fine(env, m, after)
  {
    hide Shape, Next, AfterEvaluation, NoteAll, Advance, Judging;
    AfterEvaluationRaises(env, m, own, e);
    TurnIsAfter(env, m, NoteAll(own, AfterEvaluation(env, m.r, m.cs, own, e).posts), e);
  }

  lemma {:induction false} FollowsStaysOnChain(env: Env, m: Material, own: Ledger, posts: seq<Event>)
    requires m.Valid() && Shape(env.words, m, own) && OnChain(env, m, own) && Follows(env, m, own, posts)
    ensures Shape(env.words, m, NoteAll(own, posts)) && OnChain(env, m, NoteAll(own, posts))
    decreases |posts|
  {
    hide Next, Shape, OnChain;
    if posts != [] {
      if posts[0].HandoffPosted? {
        assert Note(own, posts[0]) == own;
      } else {
        NextKeepsShape(env, m, own);
        NextStaysOnChain(env, m, own);
      }
      FollowsStaysOnChain(env, m, Note(own, posts[0]), posts[1..]);
    }
  }

  /** When the outcome rests, no turn on the way there raises. */
  lemma NoTurnRaises(env: Env, m: Material, own: Ledger)
    requires m.Valid() && Shape(env.words, m, own) && OnChain(env, m, own) && own.artifacts == []
    requires Rests(env, m, Outcome(env, m))
    ensures Advance(env, m.r, m.cs, m.sources, own).ok
  {
    hide Shape, Next, OnChain, Advance, Fine, Outcome, Follows;
    var s := Advance(env, m.r, m.cs, m.sources, own);
    if !s.ok {
      RaiseAgain(env, m, own);
      AdvanceFollows(env, m, own);
      FollowsStaysOnChain(env, m, own, s.posts);
      StuckIsOutcome(env, m, NoteAll(own, s.posts));
    }
  }

  /** The uninterrupted history is well formed, and it is where the protocol stops. */
  lemma {:induction false} ChainKeepsShape(env: Env, m: Material, own: Ledger, n: nat)
    requires m.Valid() && Shape(env.words, m, own)
    ensures var end := Chain(env, m, own, n);
      Shape(env.words, m, end) && (Stuck(env, m, end) || Size(end) == Size(own) + n)
    decreases n
  {
    hide Next, Shape;
    if n > 0 && Next(env, m, own).Some? {
      NextKeepsShape(env, m, own);
      NextKind(env, m, own);
      ChainKeepsShape(env, m, Note(own, Next(env, m, own).value), n - 1);
    }
  }

  lemma OutcomeIsStuck(env: Env, m: Material)
    requires m.Valid()
    ensures Shape(env.words, m, Outcome(env, m)) && Stuck(env, m, Outcome(env, m))
  {
    hide Next, Shape;
    EmptyShape(env.words, m);
    ChainKeepsShape(env, m, NO_RECORDS, 8);
    var end := Outcome(env, m);
    HistoryBound(env.words, m, end);
    if Next(env, m, end).Some? {
      NextKeepsShape(env, m, end);
      NextKind(env, m, end);
      HistoryBound(env.words, m, Note(end, Next(env, m, end).value));
    }
  }
}
