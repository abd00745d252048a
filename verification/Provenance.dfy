/**
 What the records of a reachable log say, and where it comes from: each field of an evaluation, a
 plan, a practice run and an artifact, traced to the inputs, the practice answers and the
 active memory.
 */
module Provenance {
  import opened Sequences
  import opened Records
  import opened Evaluator
  import opened Curriculum
  import opened Artifacts
  import opened Worker
  import opened Lifecycle
  import opened Refinement
  import opened Guarantees
  import Claims

  /** The history of a revision in any log that a run reaches. */
  lemma Reached(u: Inputs, words: Candidate -> Words, acts: seq<Act>, r: Revision)
    requires Consistent(u) && r in u.revisions
    requires forall act | act in acts :: Permitted(u, words, act)
    ensures var own := Own(LedgerOf(Play([], acts)), r.id);
      own != NO_RECORDS ==> HasMaterial(u, r) && Shape(words, MaterialOf(u, r), own)
  {
    hide Shape, Own, HasMaterial, Play, LedgerOf, InputsOf, Within, Permitted, Linked;
    EmptyLogIsSound(u, words);
    RunsAreSound(u, words, [], acts);
    assert HistoryOk(u, words, r, Own(LedgerOf(Play([], acts)), r.id));
  }

  // --- The handoffs behind a revision -----------------------------------------------------

  /** One handoff for each that a claim names, the first claim's first. */
  predicate Behind(sources: seq<Handoff>, cs: seq<Candidate>) {
    && (forall i, j | 0 <= i < j < |sources| :: sources[i].id != sources[j].id)
    && (forall c | c in cs :: exists h | h in sources :: h.id == c.handoffId)
    && (forall h | h in sources :: exists c | c in cs :: c.handoffId == h.id)
    && (cs != [] && sources != [] ==> sources[0].id == cs[0].handoffId)
  }

  lemma SourceIds(hs: seq<Handoff>, cs: seq<Candidate>)
    requires HasHandoffs(hs, HandoffIds(cs))
    ensures var sources, ids := Sources(hs, cs), Dedupe(HandoffIds(cs));
      |sources| == |ids| && forall i | 0 <= i < |ids| :: sources[i].id == ids[i] && sources[i] in hs
  {
    var ids := Dedupe(HandoffIds(cs));
    forall i | 0 <= i < |ids| ensures Sources(hs, cs)[i].id == ids[i] && Sources(hs, cs)[i] in hs {
      assert ids[i] in HandoffIds(cs);
    }
  }

  lemma SourcesAreBehind(hs: seq<Handoff>, cs: seq<Candidate>)
    requires HasHandoffs(hs, HandoffIds(cs))
    ensures Behind(Sources(hs, cs), cs)
    ensures forall h | h in Sources(hs, cs) :: h in hs
  {
    hide Sources, HasHandoffs, Dedupe;
    SourceIds(hs, cs);
    ListedAreBehind(Sources(hs, cs), Dedupe(HandoffIds(cs)), cs);
  }

  lemma ListedAreBehind(sources: seq<Handoff>, ids: seq<string>, cs: seq<Candidate>)
    requires |sources| == |ids| && forall i | 0 <= i < |ids| :: sources[i].id == ids[i]
    requires (forall i, j | 0 <= i < j < |ids| :: ids[i] != ids[j]) && forall id :: id in ids <==> id in HandoffIds(cs)
    requires ids != [] && cs != [] ==> ids[0] == HandoffIds(cs)[0]
    ensures Behind(sources, cs)
  {
    forall c | c in cs ensures exists h | h in sources :: h.id == c.handoffId {
      var k :| 0 <= k < |cs| && cs[k] == c;
      assert HandoffIds(cs)[k] in ids;
      var i :| 0 <= i < |ids| && ids[i] == c.handoffId;
      assert sources[i] in sources;
    }
    forall h | h in sources ensures exists c | c in cs :: c.handoffId == h.id {
      var i :| 0 <= i < |sources| && sources[i] == h;
      assert ids[i] in HandoffIds(cs);
      var k :| 0 <= k < |cs| && HandoffIds(cs)[k] == ids[i];
      assert cs[k] in cs;
    }
  }

  // --- Verdicts ---------------------------------------------------------------------------

  /** The author's own result, once: it neither supports nor refutes, and wins for both memories or for none. */
  lemma AuthorsVerdict(m: Material)
    requires m.Valid() && Judge(m, m.Bootstrap()).Ok?
    ensures var e, wins := Judge(m, m.Bootstrap()).value, if m.sources[0].verdict == Pass then 1 else 0;
      e.tally == Tally(0, 1, 0, 0, wins, wins, 0, false) && e.regressionCases == 1 && !e.eligible
  {
    hide TallyOf, Evaluable, UnsupportedCausal, ConcernsOf, Releasable, Greatest;
    var c := m.Bootstrap()[0];
    assert m.Bootstrap() == [c];
    OneCase(c, m.r.tenant, m.r.domain);
    BootstrapNeedsExperiment(m);
  }

  lemma OneCase(c: Case, tenant: string, domain: string)
    ensures TallyOf([c], tenant, domain) == Plus(Tally(0, 0, 0, 0, 0, 0, 0, false), c, tenant, domain)
  {
    assert [c][..0] == [] && TallyOf([], tenant, domain) == Tally(0, 0, 0, 0, 0, 0, 0, false);
  }

  /** The first verdict on a revision counts the result its first claim's author reported, and nothing else. */
  lemma FirstVerdictIsTheAuthors(u: Inputs, words: Candidate -> Words, acts: seq<Act>, r: Revision)
    requires Consistent(u) && r in u.revisions
    requires forall act | act in acts :: Permitted(u, words, act)
    requires Own(LedgerOf(Play([], acts)), r.id).evaluations != []
    ensures HasMaterial(u, r) && Behind(MaterialOf(u, r).sources, MaterialOf(u, r).cs)
    ensures var m, e := MaterialOf(u, r), Own(LedgerOf(Play([], acts)), r.id).evaluations[0];
      var wins := if m.sources[0].verdict == Pass then 1 else 0;
      && e.tally == Tally(0, 1, 0, 0, wins, wins, 0, false)
      && e.regressionCases == 1 && e.decision == NeedsExperiment && !e.eligible
  {
    hide Own, Play, LedgerOf, HasMaterial, Judge, BroadPlan, Practised, PracticeCases, RunsOf, Freezes, RunOf, Permitted;
    Reached(u, words, acts, r);
    var m := MaterialOf(u, r);
    BehindMaterial(u, r);
    AuthorsVerdict(m);
    BootstrapNeedsExperiment(m);
  }

  lemma BehindMaterial(u: Inputs, r: Revision)
    requires HasMaterial(u, r)
    ensures Behind(MaterialOf(u, r).sources, MaterialOf(u, r).cs)
    ensures forall h | h in MaterialOf(u, r).sources :: h in u.handoffs
  {
    hide Behind;
    SourcesAreBehind(u.handoffs, FindCandidates(u.candidates, r.candidateIds));
  }

  /** The runs of a practised plan are two, one for each task. */
  lemma TwoRuns(words: Candidate -> Words, m: Material, own: Ledger)
    requires m.Valid() && Shape(words, m, own) && |own.evaluations| == 2
    ensures |RunsOf(own.runs, own.plans[0].id)| == 2
    ensures forall x | x in RunsOf(own.runs, own.plans[0].id) :: x in own.runs && RunOf(own.plans[0], x)
  {
    hide Judge, BroadPlan, PracticeCases, RunsOf, BootstrapDataset, Freezes, RunOf, DistinctRuns, PlanFrom;
    PlansOfShape(words, m, own);
    var e, p := own.evaluations[0], own.plans[0];
    var xs := RunsOf(own.runs, p.id);
    RunsOfMembers(own.runs, p.id);
    forall x | x in xs ensures RunOf(p, x) {
      var q :| q in own.plans && RunOf(q, x);
      PlanOfRun(q, x);
      assert q == p;
    }
    PairOfTasks(e, p);
    assert p.tasks[0] in p.tasks && p.tasks[1] in p.tasks;
    RunForTask(own.runs, p, p.tasks[0]);
    RunForTask(own.runs, p, p.tasks[1]);
    var ids := {RunId(OfPlan(p), p.tasks[0].id), RunId(OfPlan(p), p.tasks[1].id)};
    forall x | x in xs ensures x.id in ids { RunIdsOf(e, p, x); }
    RunsStayDistinct(own.runs, p.id);
    DistinctRunsBound(xs, ids);
  }

  lemma PlanOfRun(p: Plan, x: PracticeRun) requires RunOf(p, x) ensures x.curriculumId == p.id {}

  lemma PairOfTasks(e: Evaluation, p: Plan)
    requires PlanFrom(e, p)
    ensures |p.tasks| == 2 && p.tasks[0].id != p.tasks[1].id
  {
  }

  lemma RunForTask(runs: seq<PracticeRun>, p: Plan, t: Task)
    requires Practised(p, runs) && t in p.tasks
    ensures exists x | x in RunsOf(runs, p.id) :: x.taskId == t.id
  {
    assert t.id in TaskIds(p);
  }

  lemma {:induction false} RunsStayDistinct(runs: seq<PracticeRun>, pid: Id)
    requires DistinctRuns(runs)
    ensures DistinctRuns(RunsOf(runs, pid))
  {
    if runs != [] {
      RunsStayDistinct(runs[1..], pid);
      RunsOfMembers(runs[1..], pid);
      var rest := RunsOf(runs[1..], pid);
      forall j | 0 <= j < |rest| ensures rest[j].id != runs[0].id {
        assert rest[j] in rest;
        var k :| 0 <= k < |runs[1..]| && runs[1..][k] == rest[j];
        assert runs[k + 1] == rest[j];
      }
    }
  }

  /** A verdict on practice counts two runs: each supports and wins, or refutes and harms; the parent memory wins both. */
  predicate CountsPractice(e: Evaluation, p: Plan, runs: seq<PracticeRun>) {
    var t := e.tally;
    && t.outOfScope == 0 && t.inScope == 2 && t.parentWins == 2 && !t.mechanism && e.regressionCases == 2
    && t.candidateWins == t.support && t.counterexamples == t.negativeTransfers && t.support + t.counterexamples == 2
    && (t.counterexamples == 0 <==> forall x | x in runs && x.curriculumId == p.id :: x.verdict == Some(Pass))
    && (t.support == 0 <==> forall x | x in runs && x.curriculumId == p.id :: x.verdict != Some(Pass))
  }

  lemma PracticeIsCounted(words: Candidate -> Words, m: Material, own: Ledger)
    requires m.Valid() && Shape(words, m, own) && |own.evaluations| == 2
    ensures CountsPractice(own.evaluations[1], own.plans[0], own.runs)
  {
    hide BroadPlan, PracticeCases, RunsOf, BootstrapDataset, Freezes, RunOf, DistinctRuns, TallyOf, DecisionOf,
      UnsupportedCausal, ConcernsOf, Releasable, Greatest, Evaluable;
    var p := own.plans[0];
    var xs := RunsOf(own.runs, p.id);
    TwoRuns(words, m, own);
    RunsOfMembers(own.runs, p.id);
    forall x | x in xs ensures x.tenant == m.r.tenant && x.domain == m.r.domain { RunsInScope(words, m, own, x); }
    PracticeTally(xs, m.r.tenant, m.r.domain);
  }

  /** The second verdict on a revision counts the practice of its first plan. */
  lemma SecondVerdictIsThePractice(u: Inputs, words: Candidate -> Words, acts: seq<Act>, r: Revision)
    requires Consistent(u) && r in u.revisions
    requires forall act | act in acts :: Permitted(u, words, act)
    requires |Own(LedgerOf(Play([], acts)), r.id).evaluations| > 1
    ensures var own := Own(LedgerOf(Play([], acts)), r.id);
      |own.evaluations| == 2 && own.plans != [] && CountsPractice(own.evaluations[1], own.plans[0], own.runs)
  {
    hide Own, Play, LedgerOf, HasMaterial, MaterialOf, Judge, BroadPlan, Practised, PracticeCases, RunsOf, Freezes, RunOf,
      Permitted, CountsPractice, DistinctRuns;
    Reached(u, words, acts, r);
    var own := Own(LedgerOf(Play([], acts)), r.id);
    PracticeIsCounted(words, MaterialOf(u, r), own);
  }

  // --- Plans ------------------------------------------------------------------------------

  /** The references behind the claims, claim by claim. */
  lemma {:induction false} FixturesConcat(a: seq<Candidate>, b: seq<Candidate>)
    ensures Fixtures(a + b) == Fixtures(a) + Fixtures(b)
    ensures forall c: Candidate :: Fixtures([c]) == c.evidenceRefs
    ensures forall f :: f in Fixtures(a) <==> exists c | c in a :: f in c.evidenceRefs
  {
    forall c: Candidate ensures Fixtures([c]) == c.evidenceRefs { assert [c][1..] == []; }
    if a == [] {
      assert a + b == b;
    } else {
      FixturesConcat(a[1..], b);
      assert (a + b)[1..] == a[1..] + b;
      assert a == [a[0]] + a[1..];
    }
  }

  /** A plan to practise the claims of a revision, on its parent memory and with the evidence of its claims. */
  ghost predicate Practises(words: Candidate -> Words, m: Material, e: Evaluation, p: Plan) {
    && p.candidateIds == m.r.candidateIds && p.memory == m.r.parent && p.stage == Broad && p.objectiveHash == OfText(VALIDATE)
    && p.evaluationId == e.id && p.revisionId == m.r.id && p.tenant == m.r.tenant && p.domain == m.r.domain
    && p.createdAt == e.evaluatedAt && p.budget == Budget(4, 4, 100_000, 900_000)
    && |p.tasks| == 2 && p.tasks[0].objective == VERIFY && p.tasks[1].objective == SEARCH
    && OnceInOrder(p.hypotheses, ClaimFragments(m.cs, words) + e.concerns)
    && OnceInOrder(p.tasks[0].tests, ClaimFragments(m.cs, words)) && p.tasks[1].tests == p.hypotheses
    && (forall t | t in p.tasks :: !t.targetRetry && Distinct(t.fixtures)
          && forall f :: f in t.fixtures <==> exists c | c in m.cs :: f in c.evidenceRefs)
  }

  lemma PlanPractises(words: Candidate -> Words, m: Material, e: Evaluation)
    requires m.Valid() && BroadPlan(m.r, m.cs, e, words).Ok? && Prose(e.concerns) && e.concerns != []
    requires e.revisionId == m.r.id && e.tenant == m.r.tenant && e.domain == m.r.domain
    ensures Practises(words, m, e, BroadPlan(m.r, m.cs, e, words).value)
  {
    hide TasksOf, ValidPlan, Plannable, ClaimFragments, Dedupe, Draft, Fixtures, OnceInOrder;
    var p := BroadPlan(m.r, m.cs, e, words).value;
    var fixtures := Dedupe(Fixtures(m.cs));
    BroadPlanHasTwoTasks(m, e, words);
    PlanRecords(e, m.cs, Broad, VALIDATE, m.r.parent, fixtures, words);
    PlanTasks(e, m.cs, Broad, VALIDATE, m.r.parent, fixtures, words);
    PlanShape(e, m.cs, Broad, VALIDATE, m.r.parent, fixtures, words);
    FixturesConcat(m.cs, []);
    forall t, f | t in p.tasks ensures f in t.fixtures <==> exists c | c in m.cs :: f in c.evidenceRefs {
      SameMembers(t.fixtures, fixtures, f);
    }
    forall t | t in p.tasks ensures !t.targetRetry && Distinct(t.fixtures) { SameMembers(t.fixtures, fixtures, ""); }
    assert p.candidateIds == Ids(m.cs);
  }

  lemma SameMembers(r: seq<string>, s: seq<string>, x: string)
    requires OnceInOrder(r, s)
    ensures Distinct(r) && (x in r <==> x in s)
  {
  }

  lemma HistoryPractises(words: Candidate -> Words, m: Material, own: Ledger, k: nat)
    requires m.Valid() && Shape(words, m, own) && k < |own.plans|
    ensures k < |own.evaluations| && Practises(words, m, own.evaluations[k], own.plans[k])
  {
    hide Judge, BroadPlan, Practised, PracticeCases, RunsOf, BootstrapDataset, Freezes, RunOf, DistinctRuns, PlanFrom,
      Practises;
    PlansOfShape(words, m, own);
    var e := own.evaluations[k];
    assert e in own.evaluations;
    ConcernsAreProse(m, if k == 0 then m.Bootstrap() else PracticeCasesOf(own));
    PlanPractises(words, m, e);
  }

  /** Every plan on file asks to practise the claims of its revision, and says so of the verdict it answers. */
  lemma PlansAskForPractice(u: Inputs, words: Candidate -> Words, acts: seq<Act>, r: Revision, k: nat)
    requires Consistent(u) && r in u.revisions
    requires forall act | act in acts :: Permitted(u, words, act)
    requires k < |Own(LedgerOf(Play([], acts)), r.id).plans|
    ensures HasMaterial(u, r)
    ensures var own := Own(LedgerOf(Play([], acts)), r.id);
      k < |own.evaluations| && Practises(words, MaterialOf(u, r), own.evaluations[k], own.plans[k])
  {
    hide Own, Play, LedgerOf, HasMaterial, MaterialOf, Shape, Permitted, Practises;
    Reached(u, words, acts, r);
    HistoryPractises(words, MaterialOf(u, r), Own(LedgerOf(Play([], acts)), r.id), k);
  }

  // --- Practice runs ----------------------------------------------------------------------

  /** The run carries what the handoff reports, and the handoff was meant for it. */
  predicate Carries(x: PracticeRun, h: Handoff) {
    && x.status == Completed && x.verdict == Some(h.verdict) && x.handoffId == Some(h.id)
    && x.reportHash == Some(h.reportHash) && x.outcomeHash == Some(h.outcomeHash) && x.endedAt == Some(h.createdAt)
    && h.tenant == x.tenant && h.domain == x.domain && h.parentMemory == x.memory
    && PracticeBinding(x.curriculumId, x.taskId) in h.actionRefs
  }

  /** Each run stands right behind the handoff that closed it. */
  predicate Answered(log: seq<Event>) {
    forall k | 0 <= k < |log| && log[k].PracticeCompleted? ::
      k > 0 && log[k - 1].HandoffPosted? && Carries(log[k].run, log[k - 1].practice)
  }

  lemma AnsweredConcat(a: seq<Event>, b: seq<Event>)
    requires Answered(a) && Answered(b)
    ensures Answered(a + b)
  {
    hide Carries;
    forall k | 0 <= k < |a + b| && (a + b)[k].PracticeCompleted?
      ensures k > 0 && (a + b)[k - 1].HandoffPosted? && Carries((a + b)[k].run, (a + b)[k - 1].practice)
    {
      if k >= |a| { assert b[k - |a|] == (a + b)[k]; }
    }
  }

  lemma {:induction false} PractiseAnswers(env: Env, p: Plan, tasks: seq<Task>, answered: set<Id>)
    ensures Answered(Practise(env, p, tasks, answered).posts)
  {
    hide Answered;
    if tasks == [] {
      NothingAnswered();
    } else {
      PractiseAnswers(env, p, tasks[1..], answered);
      TaskAnswers(env, p, tasks[0], answered);
      AnsweredConcat(PractiseTask(env, p, tasks[0], answered).posts, Practise(env, p, tasks[1..], answered).posts);
    }
  }

  lemma NothingAnswered() ensures Answered([]) {}

  lemma TaskAnswers(env: Env, p: Plan, t: Task, answered: set<Id>)
    ensures Answered(PractiseTask(env, p, t, answered).posts)
  {
  }

  lemma NoRunAnswers(ev: Event) requires !ev.PracticeCompleted? ensures Answered([ev]) {}

  lemma EvaluationAnswers(env: Env, r: Revision, cs: seq<Candidate>, w: Ledger, e: Evaluation)
    ensures Answered(AfterEvaluation(env, r, cs, w, e).posts)
  {
    hide Answered, Practise, BroadPlan, FindPlan, Worker.Answered, Freeze, Guarded, ValidSnapshot;
    NothingAnswered();
    if e.decision == NeedsExperiment {
      var found := FindPlan(w.plans, e.id);
      var made := BroadPlan(r, cs, e, env.words);
      var p := if found.Some? then Some(found.value) else if made.Ok? then Some(made.value) else None;
      if p.Some? {
        var answered := Worker.Answered(w.runs, p.value.id);
        PractiseAnswers(env, p.value, p.value.tasks, answered);
        NoRunAnswers(CurriculumPlanned(p.value));
        AnsweredConcat([CurriculumPlanned(p.value)], Practise(env, p.value, p.value.tasks, answered).posts);
      }
    } else if e.decision == Accepted {
      var s := FreezeStep(env, r, cs, w);
      if s.posts != [] { NoRunAnswers(s.posts[0]); }
    }
  }

  lemma TurnAnswers(env: Env, r: Revision, cs: seq<Candidate>, sources: seq<Handoff>, w: Ledger)
    requires sources != []
    ensures Answered(Advance(env, r, cs, sources, w).posts)
  {
    hide Answered, AfterEvaluation, Evaluate, Dataset, FindEvaluation;
    NothingAnswered();
    var cases := Dataset(r, w, sources);
    var found, judged := FindEvaluation(w.evaluations, r.id, OfDataset(cases)), Evaluate(r, cs, cases, sources);
    if found.Some? {
      EvaluationAnswers(env, r, cs, w, found.value);
    } else if judged.Ok? {
      var ev := Evaluated(judged.value);
      EvaluationAnswers(env, r, cs, Note(w, ev), judged.value);
      NoRunAnswers(ev);
      AnsweredConcat([ev], AfterEvaluation(env, r, cs, Note(w, ev), judged.value).posts);
    }
  }

  lemma {:induction false} TurnsAnswer(env: Env, i: Inputs, w: Ledger, done: set<Id>, rs: seq<Revision>)
    ensures Answered(ReviseAll(env, i, w, done, rs).posts)
    decreases |rs|
  {
    hide Answered, Advance, Skips;
    NothingAnswered();
    if rs != [] {
      var s := ReviseOne(env, i, w, done, rs[0]);
      var cs := FindCandidates(i.candidates, rs[0].candidateIds);
      if HasHandoffs(i.handoffs, HandoffIds(cs)) && cs != [] { TurnAnswers(env, rs[0], cs, Sources(i.handoffs, cs), w); }
      hide ReviseOne;
      TurnsAnswer(env, i, NoteAll(w, s.posts), DoneAfter(done, rs[0], s.posts), rs[1..]);
      AnsweredConcat(s.posts, ReviseAll(env, i, NoteAll(w, s.posts), DoneAfter(done, rs[0], s.posts), rs[1..]).posts);
    }
  }

  /** In every reachable log, wherever passes were killed, each run stands right behind the handoff it reports. */
  lemma {:induction false} RunsAreAnswered(u: Inputs, words: Candidate -> Words, log: seq<Event>, acts: seq<Act>)
    requires Answered(log) && forall act | act in acts :: Permitted(u, words, act)
    ensures Answered(Play(log, acts))
    decreases |acts|
  {
    hide Answered, ReviseAll, ArtifactRevisions, Loads;
    if acts != [] {
      assert acts == [acts[0]] + acts[1..];
      assert Permitted(u, words, acts[0]);
      match acts[0] {
        case Arrive(ev) =>
          NoRunAnswers(ev);
          AnsweredConcat(log, [ev]);
        case Work(env, kill) =>
          var i, w := InputsOf(log), LedgerOf(log);
          NothingAnswered();
          TurnsAnswer(env, i, w, ArtifactRevisions(i.revisions, w), i.revisions);
          AnsweredPrefix(RunPass(env, log).posts, kill);
          AnsweredConcat(log, Killed(RunPass(env, log).posts, kill));
      }
      RunsAreAnswered(u, words, After(log, acts[0]), acts[1..]);
    }
  }

  lemma AnsweredPrefix(posts: seq<Event>, kill: nat)
    requires Answered(posts)
    ensures Answered(Killed(posts, kill))
  {
  }

  // --- Artifacts --------------------------------------------------------------------------

  /** A claim's handoffs are all first-hand exactly when every handoff behind the claims is. */
  lemma FirstHandAll(sources: seq<Handoff>, cs: seq<Candidate>)
    requires Behind(sources, cs)
    ensures (forall c | c in cs :: FirstHand(sources, c.handoffId))
      <==> forall h | h in sources :: h.eligible && h.mode == SameSession
  {
    forall k: nat | k < |sources|
      ensures FirstHand(sources, sources[k].id) <==> sources[k].eligible && sources[k].mode == SameSession
    {
      assert ListedLast(sources, sources[k].id, k);
    }
    hide FirstHand;
    if forall c | c in cs :: FirstHand(sources, c.handoffId) {
      forall h | h in sources ensures h.eligible && h.mode == SameSession {
        var k :| 0 <= k < |sources| && sources[k] == h;
        var c :| c in cs && c.handoffId == h.id;
      }
    }
    if forall h | h in sources :: h.eligible && h.mode == SameSession {
      forall c | c in cs ensures FirstHand(sources, c.handoffId) {
        var h :| h in sources && h.id == c.handoffId;
        var k :| 0 <= k < |sources| && sources[k] == h;
      }
    }
  }

  /** Eligible for release exactly when every handoff behind the claims is first-hand, and dated by the latest of them. */
  predicate FirstHandMemory(m: Material, a: Artifact) {
    && Behind(m.sources, m.cs)
    && m.r.parent.OfSnapshot? && a.experiences == m.r.parent.experiences + AllReconciled(m.cs)
    && (a.eligible <==> forall h | h in m.sources :: h.eligible && h.mode == SameSession)
    && (forall h | h in m.sources :: h.createdAt <= a.createdAt)
    && (exists h | h in m.sources :: h.createdAt == a.createdAt)
  }

  lemma FrozenIsFirstHand(words: Candidate -> Words, m: Material, own: Ledger, a: Artifact)
    requires m.Valid() && Shape(words, m, own) && a in own.artifacts && Behind(m.sources, m.cs) && m.r.operation != NoChange
    ensures FirstHandMemory(m, a)
  {
    hide Evaluate, BroadPlan, Practised, PracticeCases, RunsOf, BootstrapDataset, RunOf, DistinctRuns, ValidArtifact,
      FirstHand, Behind;
    EligibleIff(m.r, m.cs, PracticeCasesOf(own), m.sources);
    VerdictRecords(m.r, m.cs, PracticeCasesOf(own), m.sources);
    MaterialIsNamed(m);
    assert m.cs[0] in m.cs;
    FirstHandAll(m.sources, m.cs);
  }

  lemma ChangesSomething(u: Inputs, r: Revision)
    requires HasMaterial(u, r)
    ensures MaterialOf(u, r).r.operation != NoChange
  {
  }

  lemma OwnArtifact(w: Ledger, rid: Id, a: Artifact)
    requires a in w.artifacts && RestsOn(a, rid)
    ensures a in Own(w, rid).artifacts
  {
    OwnMembers(w, rid);
  }

  /** In every reachable log, memory is eligible for release exactly when the authors of what it adds reported first-hand. */
  lemma EligibleMemoryIsFirstHand(u: Inputs, words: Candidate -> Words, acts: seq<Act>, a: Artifact)
    requires Consistent(u) && forall act | act in acts :: Permitted(u, words, act)
    requires a in LedgerOf(Play([], acts)).artifacts
    ensures exists r :: r in u.revisions && HasMaterial(u, r) && RestsOn(a, r.id) && FirstHandMemory(MaterialOf(u, r), a)
  {
    hide Play, LedgerOf, InputsOf, Shape, Own, HasMaterial, EvaluationLinked, PlanLinked, RunLinked, Permitted, FirstHandMemory,
      RestsOn, Behind, MaterialOf, Within;
    EmptyLogIsSound(u, words);
    RunsAreSound(u, words, [], acts);
    var w := LedgerOf(Play([], acts));
    assert ArtifactLinked(u, a);
    var r :| r in u.revisions && RestsOn(a, r.id);
    OwnArtifact(w, r.id, a);
    Reached(u, words, acts, r);
    BehindMaterial(u, r);
    ChangesSomething(u, r);
    FrozenIsFirstHand(words, MaterialOf(u, r), Own(w, r.id), a);
  }
}
