/**
 The lifecycle of one revision, as a protocol: which record may come next.

 `Next` reads only the revision's own records and states the protocol directly; the
 worker instead re-derives everything by searching the whole log, and module Refinement
 shows that it follows the protocol. This module proves what the protocol keeps.
 */
module Lifecycle {
  import opened Sequences
  import opened Records
  import opened Evaluator
  import opened Curriculum
  import Claims
  import opened Artifacts
  import opened Worker

  // --- The records of one revision --------------------------------------------------------

  function PlansOf(ps: seq<Plan>, rid: Id): seq<Plan> {
    if ps == [] then []
    else (if ps[0].revisionId == rid then [ps[0]] else []) + PlansOf(ps[1..], rid)
  }

  /** A run's id is cut out of its plan, and so names the revision the plan serves. */
  predicate RunServes(x: PracticeRun, rid: Id) {
    x.id.RunId? && x.id.planHash.OfPlan? && x.id.planHash.plan.revisionId == rid
  }

  function RunsFor(xs: seq<PracticeRun>, rid: Id): seq<PracticeRun> {
    if xs == [] then []
    else (if RunServes(xs[0], rid) then [xs[0]] else []) + RunsFor(xs[1..], rid)
  }

  /** An artifact's id names the evaluations it rests on. */
  predicate RestsOn(a: Artifact, rid: Id) {
    a.id.ArtifactId? && exists d | d in a.id.evaluations :: d.OfEvaluation? && d.evaluation.revisionId == rid
  }

  function ArtifactsFor(xs: seq<Artifact>, rid: Id): seq<Artifact> {
    if xs == [] then []
    else (if RestsOn(xs[0], rid) then [xs[0]] else []) + ArtifactsFor(xs[1..], rid)
  }

  function Own(w: Ledger, rid: Id): Ledger {
    Ledger(EvaluationsOf(w.evaluations, rid), PlansOf(w.plans, rid), RunsFor(w.runs, rid), ArtifactsFor(w.artifacts, rid))
  }

  function Size(w: Ledger): nat { |w.evaluations| + |w.plans| + |w.runs| + |w.artifacts| }

  const NO_RECORDS := Ledger([], [], [], [])

  // --- The protocol -----------------------------------------------------------------------

  /** A memory-changing revision with its candidates and the handoffs behind them. */
  datatype Material = Material(r: Revision, cs: seq<Candidate>, sources: seq<Handoff>) {
    predicate Valid() {
      sources != [] && cs != [] && Ids(cs) == r.candidateIds && Distinct(r.candidateIds)
    }

    function Bootstrap(): seq<Case>
      requires sources != []
    {
      BootstrapDataset(r, sources[0])
    }
  }

  function Judge(m: Material, cases: seq<Case>): Result<Evaluation> { Evaluate(m.r, m.cs, cases, m.sources) }

  function Judged(m: Material, cases: seq<Case>): Option<Event> {
    match Judge(m, cases) case Ok(e) => Some(Evaluated(e)) case Raised => None
  }

  function Planned(env: Env, m: Material, e: Evaluation): Option<Event> {
    match BroadPlan(m.r, m.cs, e, env.words) case Ok(p) => Some(CurriculumPlanned(p)) case Raised => None
  }

  /** The run of the first unanswered task the runner has an answer for. */
  function NextRun(env: Env, p: Plan, tasks: seq<Task>, runs: seq<PracticeRun>): Option<Event> {
    if tasks == [] then None
    else if tasks[0].id in Answered(runs, p.id) then NextRun(env, p, tasks[1..], runs)
    else match env.runner(p, tasks[0])
      case None => NextRun(env, p, tasks[1..], runs)
      case Some(h) =>
        match CompleteRun(BeginRun(p, tasks[0]), h) case Ok(x) => Some(PracticeCompleted(x)) case Raised => None
  }

  function Frozen(env: Env, m: Material, own: Ledger): Option<Event> {
    var s := FreezeStep(env, m.r, m.cs, own);
    if s.posts == [] then None else Some(s.posts[0])
  }

  function PracticeCasesOf(own: Ledger): seq<Case>
    requires own.plans != []
  {
    PracticeCases(RunsOf(own.runs, own.plans[0].id))
  }

  /** Bootstrap evaluation, plan, practice; then judge the practice; then freeze, or plan and practise once more. */
  function Next(env: Env, m: Material, own: Ledger): Option<Event>
    requires m.Valid()
  {
    var es, ps := own.evaluations, own.plans;
    if own.artifacts != [] then None
    else if es == [] then Judged(m, m.Bootstrap())
    else if ps == [] then Planned(env, m, es[0])
    else if !Practised(ps[0], own.runs) then NextRun(env, ps[0], ps[0].tasks, own.runs)
    else if |es| == 1 then Judged(m, PracticeCasesOf(own))
    else if es[1].decision == NeedsExperiment then
      if |ps| == 1 then Planned(env, m, es[1]) else NextRun(env, ps[1], ps[1].tasks, own.runs)
    else if es[1].decision == Accepted then Frozen(env, m, own)
    else None
  }

  // --- What the records of a revision always look like ------------------------------------

  predicate RunOf(p: Plan, x: PracticeRun) {
    && x.curriculumId == p.id && x.tenant == p.tenant && x.domain == p.domain && x.verdict.Some?
    && x.taskId in TaskIds(p) && x.id == RunId(OfPlan(p), x.taskId)
    && x.memory == p.memory && x.startedAt == p.createdAt && x.status == Completed
  }

  predicate DistinctRuns(xs: seq<PracticeRun>) {
    forall i, j | 0 <= i < j < |xs| :: xs[i].id != xs[j].id
  }

  /** An artifact of this revision: the guarded step from its parent memory, on exactly this evaluation. */
  predicate Freezes(m: Material, e: Evaluation, a: Artifact) {
    && a.id.ArtifactId? && a.id.evaluations == multiset{OfEvaluation(e)}
    && a.bundle == OfBundle && a.parentHash == m.r.parent && a.artifactHash == m.r.proposed
    && m.r.parent.OfSnapshot?
    && a.experiences == m.r.parent.experiences + AllReconciled(m.cs)
    && a.experienceIds == Ids(a.experiences)
    && a.id.snapshotHash == a.artifactHash && a.id.parentHash == a.parentHash
    && a.id.schema == a.schema && a.id.retrieval == a.retrieval
    && a.tenant == m.r.parent.tenant && a.domain == m.r.parent.domain && a.binding == m.r.parent.binding
    && a.eligible == e.eligible && a.createdAt == e.evaluatedAt
    && ValidArtifact(a)
  }

  predicate Shape(words: Candidate -> Words, m: Material, own: Ledger)
    requires m.Valid()
  {
    var es, ps := own.evaluations, own.plans;
    && |ps| <= |es| <= 2
    && (|es| >= 1 ==> Judge(m, m.Bootstrap()) == Ok(es[0]))
    && (|ps| >= 1 ==> BroadPlan(m.r, m.cs, es[0], words) == Ok(ps[0]))
    && (|es| == 2 ==> |ps| >= 1 && Practised(ps[0], own.runs) && Judge(m, PracticeCasesOf(own)) == Ok(es[1]))
    && (|ps| == 2 ==> es[1].decision == NeedsExperiment && BroadPlan(m.r, m.cs, es[1], words) == Ok(ps[1]))
    && (forall x | x in own.runs :: exists p | p in ps :: RunOf(p, x))
    && DistinctRuns(own.runs)
    && |own.artifacts| <= 1
    && (own.artifacts != [] ==>
          |es| == 2 && es[1].decision == Accepted && Freezes(m, es[1], own.artifacts[0]))
  }

  /** The author's own result never suffices: the bootstrap verdict is always that an experiment is needed. */
  lemma BootstrapNeedsExperiment(m: Material)
    requires m.Valid() && Judge(m, m.Bootstrap()).Ok?
    ensures Judge(m, m.Bootstrap()).value.decision == NeedsExperiment
    ensures NO_SUPPORT in Judge(m, m.Bootstrap()).value.concerns
  {
    var cases := m.Bootstrap();
    assert TallyOf(cases[..0], m.r.tenant, m.r.domain) == Tally(0, 0, 0, 0, 0, 0, 0, false);
    var t := TallyOf(cases, m.r.tenant, m.r.domain);
    assert t.support == 0 && t.outOfScope == 0 && t.negativeTransfers == 0 && t.candidateWins == t.parentWins;
  }

  /** What the evaluator says about a claim never looks like a sealed fragment. */
  lemma ConcernsAreProse(m: Material, cases: seq<Case>)
    requires Judge(m, cases).Ok?
    ensures Prose(Judge(m, cases).value.concerns)
    ensures Judge(m, cases).value.decision != Accepted ==> Judge(m, cases).value.concerns != []
  {
    hide Evaluable, TallyOf, UnsupportedCausal, Releasable, Greatest, DecisionOf;
    NoConcernsIffAccepted(m.r, m.cs, cases, m.sources);
    assert NO_SUPPORT[0] == 'N' && UNSUPPORTED_CAUSE[0] == 'A' && OUT_OF_SCOPE[0] == 'E' && BELOW_PARENT[0] == 'C'
        && NEGATIVE_TRANSFER[0] == 'N' && COUNTEREXAMPLES[0] == 'C' && Claims.PREFIX[0] == 'n';
  }

  /** A verdict carries the revision's identity, its scope and its dataset. */
  predicate JudgedFor(m: Material, cases: seq<Case>, e: Evaluation) {
    && e.revisionId == m.r.id && e.tenant == m.r.tenant && e.domain == m.r.domain
    && e.dataset == OfDataset(cases) && e.bundle == OfBundle
    && e.id == EvaluationId(OfRevision(m.r), OfDataset(cases), OfBundle)
  }

  lemma VerdictIsJudged(m: Material, cases: seq<Case>)
    requires Judge(m, cases).Ok?
    ensures JudgedFor(m, cases, Judge(m, cases).value)
  {
  }

  lemma FragmentsArePrefixed(cs: seq<Candidate>, words: Candidate -> Words, s: string)
    ensures s in ClaimFragments(cs, words) ==> Claims.PREFIX <= s
  {
    if s in ClaimFragments(cs, words) {
      var c :| c in cs && s in Claims.Fragments(words(c).hash, words(c).payload);
      var fs := Claims.Fragments(words(c).hash, words(c).payload);
      var i :| 0 <= i < |fs| && fs[i] == s;
    }
  }

  /** Every plan the worker makes has exactly two tasks, named after the evaluation it answers. */
  predicate PlanFrom(e: Evaluation, p: Plan) {
    && |p.tasks| == 2
    && p.id.CurriculumId? && p.id.identity.OfPlanIdentity? && p.id.identity.evaluationHash == OfEvaluation(e)
    && p.tasks[0].id == TaskId(p.id.identity, 1) && p.tasks[1].id == TaskId(p.id.identity, 2)
    && p.evaluationId == e.id && p.revisionId == e.revisionId && p.tenant == e.tenant && p.domain == e.domain
  }

  lemma BroadPlanHasTwoTasks(m: Material, e: Evaluation, words: Candidate -> Words)
    requires m.Valid() && BroadPlan(m.r, m.cs, e, words).Ok?
    requires Prose(e.concerns) && e.concerns != []
    ensures PlanFrom(e, BroadPlan(m.r, m.cs, e, words).value)
  {
    hide TasksOf, ValidPlan, Plannable;
    PlanShape(e, m.cs, Broad, VALIDATE, m.r.parent, Dedupe(Fixtures(m.cs)), words);
    FragmentsArePrefixed(m.cs, words, e.concerns[0]);
    assert e.concerns[0] in e.concerns;
  }

  /** The plans of a well-formed history, with the facts that tell them and their runs apart. */
  lemma PlansOfShape(words: Candidate -> Words, m: Material, own: Ledger)
    requires m.Valid() && Shape(words, m, own)
    ensures |own.evaluations| >= 1 ==>
      && own.evaluations[0].decision == NeedsExperiment
      && own.evaluations[0].dataset == OfDataset(m.Bootstrap())
    ensures |own.plans| >= 1 ==> PlanFrom(own.evaluations[0], own.plans[0])
    ensures |own.plans| >= 1 && Practised(own.plans[0], own.runs) ==>
      RunsOf(own.runs, own.plans[0].id) != [] && OfDataset(PracticeCasesOf(own)) != OfDataset(m.Bootstrap())
    ensures |own.evaluations| == 2 ==>
      && own.evaluations[1].dataset == OfDataset(PracticeCasesOf(own))
      && own.evaluations[0].id != own.evaluations[1].id
    ensures |own.plans| == 2 ==> PlanFrom(own.evaluations[1], own.plans[1]) && own.plans[0].id != own.plans[1].id
    ensures forall e | e in own.evaluations ::
      e.revisionId == m.r.id && e.id == EvaluationId(OfRevision(m.r), e.dataset, OfBundle) && e.bundle == OfBundle
      && e.tenant == m.r.tenant && e.domain == m.r.domain
  {
    hide Judge, BroadPlan, PlanFrom, Practised, PracticeCases, RunsOf, BootstrapDataset, Freezes;
    var es, ps := own.evaluations, own.plans;
    if |es| >= 1 {
      BootstrapNeedsExperiment(m);
      ConcernsAreProse(m, m.Bootstrap());
      VerdictIsJudged(m, m.Bootstrap());
    }
    if |es| == 2 {
      VerdictIsJudged(m, PracticeCasesOf(own));
    }
    if |ps| >= 1 {
      BroadPlanHasTwoTasks(m, es[0], words);
      if Practised(ps[0], own.runs) { PracticeIsNotBootstrap(m, es[0], ps[0], own.runs); }
    }
    if |ps| == 2 {
      ConcernsAreProse(m, PracticeCasesOf(own));
      BroadPlanHasTwoTasks(m, es[1], words);
      DistinctPlans(es[0], ps[0], es[1], ps[1]);
    }
  }

  lemma DistinctPlans(e: Evaluation, p: Plan, f: Evaluation, q: Plan)
    requires PlanFrom(e, p) && PlanFrom(f, q) && e.id != f.id
    ensures p.id != q.id
  {
  }

  lemma {:induction false} RunsOfMembers(xs: seq<PracticeRun>, pid: Id)
    ensures forall x :: x in RunsOf(xs, pid) <==> x in xs && x.curriculumId == pid
  {
    if xs != [] {
      RunsOfMembers(xs[1..], pid);
      assert xs == [xs[0]] + xs[1..];
    }
  }

  lemma PracticeIsNotBootstrap(m: Material, e: Evaluation, p: Plan, runs: seq<PracticeRun>)
    requires m.Valid() && PlanFrom(e, p) && Practised(p, runs)
    requires forall x | x in runs :: x.id.RunId?
    ensures RunsOf(runs, p.id) != []
    ensures PracticeCases(RunsOf(runs, p.id)) != m.Bootstrap()
  {
    RunsOfMembers(runs, p.id);
    assert p.tasks[0] in p.tasks && p.tasks[0].id in TaskIds(p);
    var xs := RunsOf(runs, p.id);
    assert xs != [];
    assert xs[0] in xs;
    assert PracticeCases(xs)[0].id == xs[0].id;
  }

  // --- One record at a time ---------------------------------------------------------------

  lemma {:induction false} RunsOfAppend(xs: seq<PracticeRun>, x: PracticeRun, pid: Id)
    ensures RunsOf(xs + [x], pid) == RunsOf(xs, pid) + if x.curriculumId == pid then [x] else []
  {
    if xs != [] {
      RunsOfAppend(xs[1..], x, pid);
      assert (xs + [x])[1..] == xs[1..] + [x];
    }
  }

  lemma {:induction false} NextRunIsNew(env: Env, p: Plan, tasks: seq<Task>, runs: seq<PracticeRun>)
    requires forall t | t in tasks :: t in p.tasks
    ensures var n := NextRun(env, p, tasks, runs);
      n.Some? ==> n.value.PracticeCompleted? && RunOf(p, n.value.run) && n.value.run.taskId !in Answered(runs, p.id)
  {
    if tasks != [] {
      assert tasks[0] in p.tasks;
      NextRunIsNew(env, p, tasks[1..], runs);
    }
  }

  /** A new run keeps the runs of a revision well formed and leaves other plans' runs alone. */
  lemma RunKeepsRuns(p: Plan, x: PracticeRun, runs: seq<PracticeRun>, ps: seq<Plan>)
    requires p in ps && RunOf(p, x) && x.taskId !in Answered(runs, p.id)
    requires (forall y | y in runs :: exists q | q in ps :: RunOf(q, y)) && DistinctRuns(runs)
    ensures (forall y | y in runs + [x] :: exists q | q in ps :: RunOf(q, y)) && DistinctRuns(runs + [x])
    ensures Answered(runs + [x], p.id) == Answered(runs, p.id) + {x.taskId}
    ensures forall q: Plan | q.id != p.id :: RunsOf(runs + [x], q.id) == RunsOf(runs, q.id)
  {
    hide RunsOf, TaskIds;
    RunsOfMembers(runs, p.id);
    RunsOfMembers(runs + [x], p.id);
    forall y | y in runs ensures y.id != x.id {
      var q :| q in ps && RunOf(q, y);
      assert q == p ==> y in RunsOf(runs, p.id);
    }
    forall q: Plan | q.id != p.id ensures RunsOf(runs + [x], q.id) == RunsOf(runs, q.id) {
      RunsOfAppend(runs, x, q.id);
      assert RunsOf(runs, q.id) + [] == RunsOf(runs, q.id);
    }
  }

  /** Freezing on the second evaluation of a well-formed history gives an artifact of this revision. */
  lemma FrozenIsGuarded(env: Env, m: Material, own: Ledger)
    requires m.Valid() && |own.evaluations| == 2
    requires own.evaluations[0].decision != Accepted && own.evaluations[1].decision == Accepted
    requires own.evaluations[1].revisionId == m.r.id
    ensures var f := Frozen(env, m, own);
      f.Some? ==> f.value.ArtifactCreated? && Freezes(m, own.evaluations[1], f.value.artifact)
  {
    var es := own.evaluations;
    assert es[1..] == [es[1]] && [es[1]][1..] == [];
    assert AcceptedOf([es[1]], m.r.id) == [es[1]];
    assert AcceptedOf(es, m.r.id) == [es[1]];
    assert [es[1]][..0] == [];
    assert Hashes([es[1]]) == multiset{OfEvaluation(es[1])};
  }

  /** The protocol keeps a revision's history well formed. */
  lemma NextKeepsShape(env: Env, m: Material, own: Ledger)
    requires m.Valid() && Shape(env.words, m, own) && Next(env, m, own).Some?
    ensures Shape(env.words, m, Note(own, Next(env, m, own).value))
  {
    hide Judge, BroadPlan, Practised, PracticeCases, RunsOf, BootstrapDataset, Freezes, NextRun, Frozen, RunOf, DistinctRuns;
    PlansOfShape(env.words, m, own);
    var es, ps := own.evaluations, own.plans;
    var ev := Next(env, m, own).value;
    if |ps| == 1 && !Practised(ps[0], own.runs) {
      RunKeepsShape(env, m, own, ps[0]);
    } else if |ps| == 2 {
      RunKeepsShape(env, m, own, ps[1]);
    } else if |es| == 2 && es[1].decision == Accepted {
      FrozenIsGuarded(env, m, own);
    }
  }

  lemma RunKeepsShape(env: Env, m: Material, own: Ledger, p: Plan)
    requires m.Valid() && Shape(env.words, m, own) && own.artifacts == []
    requires (own.plans == [p] && |own.evaluations| == 1) || (|own.plans| == 2 && own.plans[1] == p)
    requires NextRun(env, p, p.tasks, own.runs).Some?
    ensures Shape(env.words, m, Note(own, NextRun(env, p, p.tasks, own.runs).value))
  {
    hide Judge, BroadPlan, PracticeCases, RunsOf, BootstrapDataset, Freezes, NextRun, RunOf, DistinctRuns;
    PlansOfShape(env.words, m, own);
    NextRunIsNew(env, p, p.tasks, own.runs);
    var x := NextRun(env, p, p.tasks, own.runs).value.run;
    assert p in own.plans;
    RunKeepsRuns(p, x, own.runs, own.plans);
  }
}
