/**
 Which revisions freeze: the outcome of a revision, read off the practice answers, the kind of its
 claims and the active memory; and with it the condition for crash-restart confluence.
 */
module Freezing {
  import opened Sequences
  import opened Records
  import opened Evaluator
  import opened Curriculum
  import opened Artifacts
  import opened Worker
  import opened Lifecycle
  import opened Refinement
  import opened Guarantees
  import opened Histories
  import opened Restart
  import opened Overtaking

  /** Every run on record is the one its answer closed, and nothing was frozen against the guards. */
  predicate Sourced(env: Env, m: Material, own: Ledger) {
    && (forall x | x in own.runs :: exists p, t :: p in own.plans && t in p.tasks && AnsweredBy(env, p, t, x))
    && (own.artifacts != [] ==> Guarded(env.active(m.r), m.r, m.cs))
  }

  predicate AnsweredBy(env: Env, p: Plan, t: Task, x: PracticeRun) {
    env.runner(p, t).Some? && CompleteRun(BeginRun(p, t), env.runner(p, t).value) == Ok(x)
  }

  lemma {:induction false} NextRunIsAnswered(env: Env, p: Plan, tasks: seq<Task>, runs: seq<PracticeRun>)
    requires forall t | t in tasks :: t in p.tasks
    ensures var n := NextRun(env, p, tasks, runs);
      n.Some? ==> n.value.PracticeCompleted? && exists t :: t in p.tasks && AnsweredBy(env, p, t, n.value.run)
  {
    hide Closes;
    if tasks != [] {
      assert tasks[0] in p.tasks;
      NextRunIsAnswered(env, p, tasks[1..], runs);
      var n := NextRun(env, p, tasks, runs);
      if n.Some? && tasks[0].id !in Answered(runs, p.id) && env.runner(p, tasks[0]).Some? {
        assert AnsweredBy(env, p, tasks[0], n.value.run);
      }
    }
  }

  lemma NextKeepsSourced(env: Env, m: Material, own: Ledger)
    requires m.Valid() && Shape(env.words, m, own) && Sourced(env, m, own) && Next(env, m, own).Some?
    ensures Sourced(env, m, Note(own, Next(env, m, own).value))
  {
    hide Judge, BroadPlan, Practised, PracticeCases, RunsOf, Freezes, NextRun, Freeze, ValidSnapshot, RunOf, DistinctRuns,
      AnsweredBy, Guarded, Shape;
    NextKind(env, m, own);
    var ps := own.plans;
    var after := Note(own, Next(env, m, own).value);
    if ps != [] { NextRunIsAnswered(env, ps[0], ps[0].tasks, own.runs); }
    if |ps| >= 2 { NextRunIsAnswered(env, ps[1], ps[1].tasks, own.runs); }
    forall x | x in after.runs ensures exists p, t :: p in after.plans && t in p.tasks && AnsweredBy(env, p, t, x) {
      if x in own.runs {
        var p, t :| p in ps && t in p.tasks && AnsweredBy(env, p, t, x);
        assert p in after.plans;
      } else if |ps| >= 2 {
        assert ps[0] in after.plans && ps[1] in after.plans;
      } else {
        assert ps[0] in after.plans;
      }
    }
  }

  lemma {:induction false} ChainIsSourced(env: Env, m: Material, own: Ledger, n: nat)
    requires m.Valid() && Shape(env.words, m, own) && Sourced(env, m, own)
    ensures Sourced(env, m, Chain(env, m, own, n))
    decreases n
  {
    hide Next, Shape, Sourced;
    if n > 0 && Next(env, m, own).Some? {
      NextKeepsShape(env, m, own);
      NextKeepsSourced(env, m, own);
      ChainIsSourced(env, m, Note(own, Next(env, m, own).value), n - 1);
    }
  }

  lemma OutcomeIsFinal(env: Env, m: Material)
    requires m.Valid()
    ensures var end := Outcome(env, m); Shape(env.words, m, end) && Sourced(env, m, end) && Stuck(env, m, end)
  {
    hide Next, Shape;
    EmptyShape(env.words, m);
    ChainIsSourced(env, m, NO_RECORDS, 8);
    OutcomeIsStuck(env, m);
  }

  /** The first plan of a revision: what the worker asks practice to settle. */
  function FirstPlan(env: Env, m: Material): Result<Plan>
    requires m.Valid()
  {
    match Judge(m, m.Bootstrap())
    case Raised => Raised
    case Ok(e) => BroadPlan(m.r, m.cs, e, env.words)
  }

  predicate AllPass(env: Env, p: Plan) {
    forall t | t in p.tasks :: env.runner(p, t).Some? && env.runner(p, t).value.verdict == Pass
  }

  /** Practice passes every task, every claim is an association, and both guards hold. */
  predicate WillFreeze(env: Env, m: Material)
    requires m.Valid()
  {
    && FirstPlan(env, m).Ok? && AllPass(env, FirstPlan(env, m).value)
    && (forall c | c in m.cs :: c.causal == ObservedAssociation)
    && Guarded(env.active(m.r), m.r, m.cs)
  }

  lemma AnswerIs(env: Env, p: Plan, t: Task, x: PracticeRun)
    requires AnsweredBy(env, p, t, x)
    ensures env.runner(p, t).Some?
    ensures x.curriculumId == p.id && x.taskId == t.id && x.verdict == Some(env.runner(p, t).value.verdict)
  {
  }

  /** A run of a plan of this history carries the runner's verdict on the plan's task. */
  lemma RunCarriesVerdict(env: Env, m: Material, own: Ledger, x: PracticeRun, p: Plan, t: Task)
    requires m.Valid() && Shape(env.words, m, own) && Sourced(env, m, own)
    requires x in own.runs && p in own.plans && x.curriculumId == p.id && t in p.tasks && x.taskId == t.id
    ensures env.runner(p, t).Some? && x.verdict == Some(env.runner(p, t).value.verdict)
  {
    hide Judge, BroadPlan, Practised, PracticeCases, RunsOf, BootstrapDataset, Freezes, RunOf, DistinctRuns, AnsweredBy,
      PlanFrom;
    PlansOfShape(env.words, m, own);
    var q, s :| q in own.plans && s in q.tasks && AnsweredBy(env, q, s, x);
    AnswerIs(env, q, s, x);
    assert q == p;
    var k: nat :| k < |own.plans| && own.plans[k] == p;
    SameTask(own.evaluations[k], p, s, t);
  }

  lemma SameTask(e: Evaluation, p: Plan, s: Task, t: Task)
    requires PlanFrom(e, p) && s in p.tasks && t in p.tasks && s.id == t.id
    ensures s == t
  {
  }

  lemma FirstPlanIs(env: Env, m: Material, own: Ledger)
    requires m.Valid() && Shape(env.words, m, own) && own.plans != []
    ensures FirstPlan(env, m) == Ok(own.plans[0])
  {
    hide Judge, BroadPlan, Practised, PracticeCases, RunsOf, BootstrapDataset, Freezes, RunOf, DistinctRuns;
  }

  /** What is frozen was answered, passed, associational and guarded. */
  lemma FrozenWillFreeze(env: Env, m: Material, own: Ledger)
    requires m.Valid() && Shape(env.words, m, own) && Sourced(env, m, own) && own.artifacts != []
    ensures WillFreeze(env, m)
  {
    hide Shape, AnsweredBy, Freezes, PracticeCases, Guarded, PlanFrom, FirstPlan;
    HistoryEarned(env.words, m, own);
    FirstPlanIs(env, m, own);
    var p := own.plans[0];
    RunsOfMembers(own.runs, p.id);
    forall t | t in p.tasks ensures env.runner(p, t).Some? && env.runner(p, t).value.verdict == Pass {
      assert t.id in TaskIds(p);
      var x :| x in RunsOf(own.runs, p.id) && x.taskId == t.id;
      RunCarriesVerdict(env, m, own, x, p, t);
    }
  }

  /** Practice that posts nothing and does not raise has met no answer to an open task. */
  lemma {:induction false} QuietPractice(env: Env, p: Plan, tasks: seq<Task>, answered: set<Id>)
    requires Practise(env, p, tasks, answered) == NOTHING
    ensures forall t | t in tasks :: t.id in answered || env.runner(p, t).None?
  {
    hide Closes;
    if tasks != [] {
      assert PractiseTask(env, p, tasks[0], answered) == NOTHING;
      QuietPractice(env, p, tasks[1..], answered);
    }
  }

  /** A history at rest has practised its first plan, if practice answers every task of it. */
  lemma RestIsPractised(env: Env, m: Material, own: Ledger)
    requires m.Valid() && Shape(env.words, m, own) && Rests(env, m, own) && own.artifacts == []
    ensures own.evaluations != [] && own.plans != [] && FirstPlan(env, m) == Ok(own.plans[0])
    ensures AllPass(env, own.plans[0]) ==> |own.evaluations| == 2
  {
    hide Judge, Practised, NextRun, Practise, PracticeCases, Advance, Shape, AllPass, FirstPlan, Next, Follows;
    WholeTurn(env, m, own);
    StuckFollows(env, m, own, Advance(env, m.r, m.cs, m.sources, own).posts);
    assert Settled(env, own);
    FirstPlanIs(env, m, own);
    ShapeBounds(env.words, m, own);
    if AllPass(env, own.plans[0]) {
      if Judging(own) { RestIsJudged(env, m, own); } else { UnpractisedActs(env, m, own); }
    }
  }

  /** With the first plan practised, a history at rest is judged: else its next turn would judge or raise. */
  lemma RestIsJudged(env: Env, m: Material, own: Ledger)
    requires m.Valid() && Shape(env.words, m, own) && Rests(env, m, own) && own.artifacts == [] && Judging(own)
    ensures |own.evaluations| == 2
  {
    hide Shape, Next, Evaluate, AfterEvaluation, Dataset, FindEvaluation, Judging;
    TurnFinds(env, m, own);
    EvaluationBound(env.words, m, own);
  }

  /** With an open task answered, a turn posts a run or raises. */
  lemma UnpractisedActs(env: Env, m: Material, own: Ledger)
    requires m.Valid() && Shape(env.words, m, own) && Rests(env, m, own) && own.artifacts == []
    requires own.plans != [] && !Judging(own) && own.evaluations != []
    ensures !AllPass(env, own.plans[0])
  {
    hide Judge, BroadPlan, Practise, PracticeCases, RunsOf, Freezes, NextRun, DistinctRuns, BootstrapDataset, PlanFrom,
      Advance, Next, AfterEvaluation, Practised, RunOf;
    PlansOfShape(env.words, m, own);
    StuckTurnIsQuiet(env, m, own);
    var e, p := own.evaluations[0], own.plans[0];
    assert own.evaluations == [e] && own.plans == [p];
    TurnIsAfter(env, m, own, e);
    PlanLookup(env, m, own, e);
    AfterPlan(env, m, own, e, p);
    QuietPractice(env, p, p.tasks, Answered(own.runs, p.id));
    var t := OpenTask(env, m, own, p);
  }

  lemma AfterPlan(env: Env, m: Material, own: Ledger, e: Evaluation, p: Plan)
    requires e.decision == NeedsExperiment && FindPlan(own.plans, e.id) == Some(p)
    ensures AfterEvaluation(env, m.r, m.cs, own, e) == Practise(env, p, p.tasks, Answered(own.runs, p.id))
  {
  }

  lemma OpenTask(env: Env, m: Material, own: Ledger, p: Plan) returns (t: Task)
    requires m.Valid() && Shape(env.words, m, own) && own.plans == [p] && !Practised(p, own.runs)
    ensures t in p.tasks && t.id !in Answered(own.runs, p.id)
  {
    hide Judge, BroadPlan, PracticeCases, RunsOf, Freezes, DistinctRuns, BootstrapDataset, PlanFrom;
    RunsOfMembers(own.runs, p.id);
    forall x | x in RunsOf(own.runs, p.id) ensures x.taskId in TaskIds(p) {
      var q :| q in own.plans && RunOf(q, x);
      assert q == p;
    }
    var id :| id in TaskIds(p) && id !in Answered(own.runs, p.id);
    t :| t in p.tasks && t.id == id;
  }

  /** A practised, passed, associational and guarded history is not at rest before it freezes. */
  lemma WillFreezeFreezes(env: Env, m: Material, own: Ledger)
    requires m.Valid() && Shape(env.words, m, own) && Sourced(env, m, own) && Rests(env, m, own)
    requires WillFreeze(env, m)
    ensures own.artifacts != []
  {
    hide Evaluate, BroadPlan, Practised, PracticeCases, RunsOf, Freezes, RunOf, DistinctRuns, PlanFrom,
      BootstrapDataset, Sourced, FreezeStep, NextRun, FirstPlan, Advance, Guarded;
    if own.artifacts == [] {
      RestIsPractised(env, m, own);
      PlansOfShape(env.words, m, own);
      PassedIsAccepted(env, m, own);
      FreezePosts(env, m, own);
    }
  }

  lemma PassedIsAccepted(env: Env, m: Material, own: Ledger)
    requires m.Valid() && Shape(env.words, m, own) && Sourced(env, m, own) && |own.evaluations| == 2 && own.plans != []
    requires AllPass(env, own.plans[0]) && forall c | c in m.cs :: c.causal == ObservedAssociation
    ensures own.evaluations[1].decision == Accepted
  {
    hide Evaluate, BroadPlan, Practised, PracticeCases, RunsOf, Freezes, RunOf, DistinctRuns, PlanFrom,
      BootstrapDataset, Sourced, AllPass;
    PlansOfShape(env.words, m, own);
    var xs := RunsOf(own.runs, own.plans[0].id);
    RunsOfMembers(own.runs, own.plans[0].id);
    forall x | x in xs
      ensures x.tenant == m.r.tenant && x.domain == m.r.domain && x.verdict == Some(Pass)
    {
      RunsInScope(env.words, m, own, x);
      RunPassed(env, m, own, x);
    }
    PracticeVerdict(m.r, m.cs, xs, m.sources);
  }

  lemma RunPassed(env: Env, m: Material, own: Ledger, x: PracticeRun)
    requires m.Valid() && Shape(env.words, m, own) && Sourced(env, m, own) && own.plans != []
    requires AllPass(env, own.plans[0]) && x in own.runs && x.curriculumId == own.plans[0].id
    ensures x.verdict == Some(Pass)
  {
    hide Judge, BroadPlan, Practised, PracticeCases, RunsOf, Freezes, DistinctRuns, BootstrapDataset, Sourced, PlanFrom;
    PlansOfShape(env.words, m, own);
    var p :| p in own.plans && RunOf(p, x);
    assert p == own.plans[0];
    var t :| t in p.tasks && t.id == x.taskId;
    RunCarriesVerdict(env, m, own, x, p, t);
  }

  /** An accepted and guarded history at rest would post its artifact, or raise. */
  lemma FreezePosts(env: Env, m: Material, own: Ledger)
    requires m.Valid() && Shape(env.words, m, own) && Guarded(env.active(m.r), m.r, m.cs)
    requires |own.evaluations| == 2 && own.evaluations[1].decision == Accepted && own.artifacts == []
    ensures !Rests(env, m, own)
  {
    hide Shape, Next, Advance, ValidSnapshot, Freeze, Updated;
    TurnIsAfter(env, m, own, own.evaluations[1]);
    if Rests(env, m, own) { StuckTurnIsQuiet(env, m, own); }
    assert FreezeStep(env, m.r, m.cs, own) != NOTHING;
  }

  /** A revision ends frozen exactly when its practice passes on mere associations, both guards hold and it meets no error. */
  lemma FreezesIff(env: Env, m: Material)
    requires m.Valid()
    ensures Outcome(env, m).artifacts != [] <==> WillFreeze(env, m) && Rests(env, m, Outcome(env, m))
  {
    hide Shape, Sourced, Stuck, WillFreeze, Outcome, Advance;
    OutcomeIsFinal(env, m);
    if Outcome(env, m).artifacts != [] { FrozenWillFreeze(env, m, Outcome(env, m)); }
    if WillFreeze(env, m) && Rests(env, m, Outcome(env, m)) { WillFreezeFreezes(env, m, Outcome(env, m)); }
  }

  // --- Overtaking, read off the inputs ----------------------------------------------------

  /** Memory as revision `a` would freeze it holds every candidate of revision `c`. */
  predicate Swallows(i: Inputs, env: Env, a: nat, c: nat)
    requires a < |i.revisions| && c < |i.revisions| && Ready(i, a)
  {
    && WillFreeze(env, Mat(i, a))
    && forall id | id in i.revisions[c].candidateIds ::
         id in Ids(env.active(i.revisions[a]).snapshot.experiences) || id in i.revisions[a].candidateIds
  }

  lemma FrozenIds(env: Env, m: Material, id: Id)
    requires m.Valid() && WillFreeze(env, m)
    ensures forall x | x in Outcome(env, m).artifacts ::
      id in x.experienceIds <==> id in Ids(env.active(m.r).snapshot.experiences) || id in m.r.candidateIds
  {
    hide Evaluate, BroadPlan, Practised, PracticeCases, RunsOf, RunOf, DistinctRuns, PlanFrom, ValidArtifact,
      BootstrapDataset, FirstPlan, Outcome, AllPass;
    OutcomeIsFinal(env, m);
    forall x | x in Outcome(env, m).artifacts
      ensures id in x.experienceIds <==> id in Ids(env.active(m.r).snapshot.experiences) || id in m.r.candidateIds
    {
      var own := Outcome(env, m);
      assert Freezes(m, own.evaluations[1], x);
      IdsAppend(env.active(m.r).snapshot.experiences, m.cs);
    }
  }

  lemma IdsAppend(xs: seq<Candidate>, cs: seq<Candidate>)
    ensures Ids(xs + AllReconciled(cs)) == Ids(xs) + Ids(cs)
  {
  }

  /** No revision that will freeze swallows a later one's candidates. */
  predicate NoneSwallowed(i: Inputs, env: Env) {
    forall a: nat, c: nat | a < c < |i.revisions| && Ready(i, a) && Ready(i, c) :: !Swallows(i, env, a, c)
  }

  lemma SwallowedIffOvertaken(i: Inputs, env: Env)
    requires Sturdy(i, env)
    ensures NoneSwallowed(i, env) <==> NoOvertake(i, env)
  {
    hide Sturdy, HasMaterial, MaterialOf, Outcome, Holds, Swallows;
    forall a: nat, c: nat | a < c < |i.revisions| && Ready(i, a) && Ready(i, c)
      ensures Swallows(i, env, a, c) <==>
        exists x | x in Outcome(env, Mat(i, a)).artifacts :: Holds(x, i.revisions[c].candidateIds)
    {
      SwallowsIsHolding(i, env, a, c);
    }
  }

  /** Crash-restart confluence holds exactly when no revision that will freeze swallows a later one's candidates. */
  lemma ConfluentIffNoneSwallowed(env: Env, log: seq<Event>)
    requires Fresh(log) && Sturdy(InputsOf(log), env)
    ensures
      (forall kills, c: nat | c < |InputsOf(log).revisions| && Ready(InputsOf(log), c) :: Agrees(env, log, kills, c))
      <==> NoneSwallowed(InputsOf(log), env)
  {
    hide Sturdy, Agrees, HasMaterial, MaterialOf, NoneSwallowed, NoOvertake;
    ConfluentIff(env, log);
    SwallowedIffOvertaken(InputsOf(log), env);
  }

  lemma SwallowsIsHolding(i: Inputs, env: Env, a: nat, c: nat)
    requires Sturdy(i, env) && a < |i.revisions| && c < |i.revisions| && Ready(i, a)
    ensures Swallows(i, env, a, c) <==>
      exists x | x in Outcome(env, Mat(i, a)).artifacts :: Holds(x, i.revisions[c].candidateIds)
  {
    hide HasMaterial, MaterialOf, Outcome, WillFreeze, Rests;
    var m := Mat(i, a);
    assert Rests(env, m, Outcome(env, m));
    FreezesIff(env, m);
    if WillFreeze(env, m) {
      forall id ensures forall x | x in Outcome(env, m).artifacts ::
        id in x.experienceIds <==> id in Ids(env.active(m.r).snapshot.experiences) || id in m.r.candidateIds
      {
        FrozenIds(env, m, id);
      }
      assert Outcome(env, m).artifacts[0] in Outcome(env, m).artifacts;
    }
  }
}
