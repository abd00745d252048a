/**
 Worlds in which no turn raises: everything is in scope, every practice answer closes its run, and
 the active memory can be extended.
 */
module Smoothness {
  import opened Sequences
  import opened Records
  import opened Evaluator
  import opened Curriculum
  import opened Artifacts
  import opened Worker
  import opened Lifecycle
  import opened Refinement
  import opened Guarantees
  import opened Histories
  import opened Restart
  import opened Overtaking

  /** The active memory is fit to be extended by this revision's candidates. */
  predicate Extensible(env: Env, m: Material) {
    var active := env.active(m.r);
    active.snapshot.Hash() == m.r.parent == active.hash ==>
      var s := Updated(active, m.cs);
      && s.tenant == m.r.tenant && s.domain == m.r.domain
      && Distinct(Ids(s.experiences))
      && forall c | c in s.experiences :: c.status == Reconciled && c.tenant == s.tenant && c.domain == s.domain
  }

  /** Everything is in scope, every answer closes its run, and the memory can be extended. */
  ghost predicate SmoothFor(env: Env, m: Material)
    requires m.Valid()
  {
    && Evaluable(m.r, m.cs, m.Bootstrap(), m.sources)
    && Fixtures(m.cs) != []
    && Extensible(env, m)
    && forall p, t :: env.runner(p, t).Some? ==> Closes(BeginRun(p, t), env.runner(p, t).value)
  }

  /** Every revision that a pass does not wait for has its material, and meets no error. */
  ghost predicate Smooth(i: Inputs, env: Env) {
    forall a: nat | a < |i.revisions| ::
      && (Ready(i, a) ==> SmoothFor(env, Mat(i, a)))
      && (!Ready(i, a) ==> Skips(i, {}, i.revisions[a]))
  }

  predicate Scoped(m: Material, es: seq<Evaluation>) {
    forall e | e in es :: e.revisionId == m.r.id && e.tenant == m.r.tenant && e.domain == m.r.domain && e.bundle == OfBundle
  }

  lemma {:induction false} PractiseOk(env: Env, p: Plan, tasks: seq<Task>, answered: set<Id>)
    requires forall q, t :: env.runner(q, t).Some? ==> Closes(BeginRun(q, t), env.runner(q, t).value)
    ensures Practise(env, p, tasks, answered).ok
  {
    if tasks != [] { PractiseOk(env, p, tasks[1..], answered); }
  }

  lemma PlanOk(env: Env, m: Material, e: Evaluation)
    requires m.Valid() && SmoothFor(env, m) && Scoped(m, [e])
    ensures BroadPlan(m.r, m.cs, e, env.words).Ok?
  {
    hide ValidPlan, Draft, Fixtures, Dedupe, Plannable, SmoothFor, Scoped;
    PlanIsScoped(env, m, e);
    assert VALIDATE[0] == 'V' && VALIDATE[0] in VALIDATE;
    PlanSucceedsIff(e, m.cs, Broad, VALIDATE, m.r.parent, Dedupe(Fixtures(m.cs)), env.words);
  }

  lemma PlanIsScoped(env: Env, m: Material, e: Evaluation)
    requires m.Valid() && SmoothFor(env, m) && Scoped(m, [e])
    ensures Dedupe(Fixtures(m.cs)) != [] && forall c | c in m.cs :: c.tenant == e.tenant && c.domain == e.domain
  {
    hide Fixtures, Releasable, Closes, Extensible;
    assert e in [e];
    RelevantIsAll(m);
  }

  lemma RelevantIsAll(m: Material)
    requires m.Valid()
    ensures Relevant(m.cs, m.r.candidateIds) == m.cs
    ensures Distinct(Ids(m.cs))
  {
    forall c | c in m.cs ensures c.id in m.r.candidateIds {
      var k :| 0 <= k < |m.cs| && m.cs[k] == c;
      assert Ids(m.cs)[k] == c.id;
    }
  }

  lemma {:induction false} AcceptedMembers(es: seq<Evaluation>, rid: Id)
    ensures forall e :: e in AcceptedOf(es, rid) <==> e in es && e.revisionId == rid && e.decision == Accepted
  {
    if es != [] {
      AcceptedMembers(es[1..], rid);
      assert es == [es[0]] + es[1..];
    }
  }

  lemma FreezeOk(env: Env, m: Material, own: Ledger, e: Evaluation)
    requires m.Valid() && Extensible(env, m) && Scoped(m, own.evaluations) && e in own.evaluations && e.decision == Accepted
    ensures FreezeStep(env, m.r, m.cs, own).ok
  {
    AcceptedMembers(own.evaluations, m.r.id);
    var s := Updated(env.active(m.r), m.cs);
    assert s.experiences != [];
  }

  lemma AfterEvaluationOk(env: Env, m: Material, own: Ledger, e: Evaluation)
    requires m.Valid() && SmoothFor(env, m) && Scoped(m, own.evaluations) && e in own.evaluations
    ensures AfterEvaluation(env, m.r, m.cs, own, e).ok
  {
    hide Evaluable, Practise, FreezeStep, BroadPlan, Closes, Extensible;
    if e.decision == NeedsExperiment {
      var found := FindPlan(own.plans, e.id);
      if found.Some? {
        PractiseOk(env, found.value, found.value.tasks, Answered(own.runs, found.value.id));
      } else {
        PlanOk(env, m, e);
        var p := BroadPlan(m.r, m.cs, e, env.words).value;
        PractiseOk(env, p, p.tasks, Answered(own.runs, p.id));
      }
    } else if e.decision == Accepted {
      FreezeOk(env, m, own, e);
    }
  }

  lemma JudgeOk(env: Env, m: Material, cases: seq<Case>)
    requires m.Valid() && SmoothFor(env, m) && cases != []
    ensures Judge(m, cases).Ok? && JudgedFor(m, cases, Judge(m, cases).value)
  {
    hide Releasable, Greatest, TallyOf, DecisionOf, ConcernsOf, Closes, Extensible;
  }

  lemma TurnStart(env: Env, m: Material, own: Ledger)
    requires m.Valid() && Shape(env.words, m, own)
    ensures Dataset(m.r, own, m.sources) != [] && Scoped(m, own.evaluations)
  {
    hide Judge, BroadPlan, Practised, PracticeCases, RunsOf, BootstrapDataset, Freezes, RunOf, DistinctRuns, Dataset;
    PlansOfShape(env.words, m, own);
    DatasetOfShape(env, m, own);
    CasesExist(m, own);
  }

  /** In such a world no turn raises. */
  lemma SmoothTurnOk(env: Env, m: Material, own: Ledger)
    requires m.Valid() && SmoothFor(env, m) && Shape(env.words, m, own)
    ensures Advance(env, m.r, m.cs, m.sources, own).ok
  {
    hide Evaluate, Shape, AfterEvaluation, SmoothFor, Dataset;
    TurnStart(env, m, own);
    var cases := Dataset(m.r, own, m.sources);
    JudgeOk(env, m, cases);
    var found := FindEvaluation(own.evaluations, m.r.id, OfDataset(cases));
    if found.Some? {
      FoundEvaluation(own.evaluations, m.r.id, OfDataset(cases));
      AfterEvaluationOk(env, m, own, found.value);
    } else {
      var e := Judge(m, cases).value;
      AfterEvaluationOk(env, m, Note(own, Evaluated(e)), e);
    }
  }

  lemma CasesExist(m: Material, own: Ledger)
    requires m.Valid() && Dataset(m.r, own, m.sources)
      == if own.plans != [] && Practised(own.plans[0], own.runs) then PracticeCasesOf(own) else m.Bootstrap()
    requires own.plans != [] && Practised(own.plans[0], own.runs) ==> RunsOf(own.runs, own.plans[0].id) != []
    ensures Dataset(m.r, own, m.sources) != []
  {
  }

  /** Such a revision's outcome rests. */
  lemma SmoothRests(env: Env, m: Material)
    requires m.Valid() && SmoothFor(env, m)
    ensures Rests(env, m, Outcome(env, m))
  {
    hide Shape, SmoothFor, Outcome, Advance, Stuck;
    OutcomeIsStuck(env, m);
    SmoothTurnOk(env, m, Outcome(env, m));
  }

  lemma SmoothIsSturdy(i: Inputs, env: Env)
    requires Smooth(i, env)
    ensures Sturdy(i, env)
  {
    hide SmoothFor, Outcome, Rests, HasMaterial, MaterialOf, Skips;
    forall a: nat | a < |i.revisions| && Ready(i, a) ensures Rests(env, Mat(i, a), Outcome(env, Mat(i, a))) {
      SmoothRests(env, Mat(i, a));
    }
  }
}
