/**
 The worker follows the protocol: every event a pass posts is, at the moment it is posted,
 the next record `Lifecycle.Next` allows some revision, however much of the log belongs to
 other revisions and wherever an earlier pass was killed.
 */
module Refinement {
  import opened Sequences
  import opened Records
  import opened Evaluator
  import opened Curriculum
  import opened Artifacts
  import opened Worker
  import opened Lifecycle

  // --- Which inputs a log may carry -------------------------------------------------------

  predicate Known<K(==), V(==)>(key: V -> K, s: seq<V>, v: V) {
    var i := Position(key, s, key(v));
    i < |s| && s[i] == v
  }

  /** Inputs never carry two contents under one id: ids are cut out of the contents' digests. */
  predicate Within(i: Inputs, u: Inputs) {
    && (forall h | h in i.handoffs :: Known(HandoffKey, u.handoffs, h))
    && (forall c | c in i.candidates :: Known(CandidateKey, u.candidates, c))
    && (forall r | r in i.revisions :: Known(RevisionKey, u.revisions, r))
  }

  predicate Consistent(u: Inputs) { Within(u, u) }

  predicate HasMaterial(u: Inputs, r: Revision) {
    var cs := FindCandidates(u.candidates, r.candidateIds);
    && r.operation != NoChange && |cs| == |r.candidateIds| && cs != []
    && Distinct(r.candidateIds) && HasHandoffs(u.handoffs, HandoffIds(cs))
  }

  function MaterialOf(u: Inputs, r: Revision): (m: Material)
    requires HasMaterial(u, r)
    ensures m.Valid() && m.r == r
  {
    var cs := FindCandidates(u.candidates, r.candidateIds);
    Material(r, cs, Sources(u.handoffs, cs))
  }

  lemma {:induction false} CandidatesWithin(i: Inputs, u: Inputs, ids: seq<Id>)
    requires Within(i, u) && |FindCandidates(i.candidates, ids)| == |ids|
    ensures FindCandidates(u.candidates, ids) == FindCandidates(i.candidates, ids)
  {
    if ids != [] {
      var k := Position(CandidateKey, i.candidates, ids[0]);
      assert |FindCandidates(i.candidates, ids[1..])| <= |ids| - 1;
      assert k < |i.candidates|;
      CandidatesWithin(i, u, ids[1..]);
      assert i.candidates[k] in i.candidates;
    }
  }

  /** What the log holds about a revision's claims is what the world holds about them. */
  lemma MaterialWithin(i: Inputs, u: Inputs, r: Revision)
    requires Within(i, u) && HasMaterial(i, r)
    ensures HasMaterial(u, r) && MaterialOf(u, r) == MaterialOf(i, r)
  {
    CandidatesWithin(i, u, r.candidateIds);
    var cs := FindCandidates(i.candidates, r.candidateIds);
    forall id | id in HandoffIds(cs)
      ensures Position(HandoffKey, u.handoffs, id) < |u.handoffs|
      ensures u.handoffs[Position(HandoffKey, u.handoffs, id)] == i.handoffs[Position(HandoffKey, i.handoffs, id)]
    {
      assert i.handoffs[Position(HandoffKey, i.handoffs, id)] in i.handoffs;
    }
    assert Sources(u.handoffs, cs) == Sources(i.handoffs, cs);
  }

  // --- Records name the revision they belong to -------------------------------------------

  predicate EvaluationLinked(u: Inputs, e: Evaluation) {
    exists r | r in u.revisions ::
      e.revisionId == r.id && e.bundle == OfBundle && e.id == EvaluationId(OfRevision(r), e.dataset, OfBundle)
  }

  predicate PlanLinked(u: Inputs, p: Plan) {
    && p.id.CurriculumId? && p.id.identity.OfPlanIdentity? && p.id.identity.evaluationHash.OfEvaluation?
    && var e := p.id.identity.evaluationHash.evaluation;
       EvaluationLinked(u, e) && p.evaluationId == e.id && p.revisionId == e.revisionId
  }

  predicate RunLinked(u: Inputs, x: PracticeRun) {
    x.id.RunId? && x.id.planHash.OfPlan? && PlanLinked(u, x.id.planHash.plan) && x.curriculumId == x.id.planHash.plan.id
  }

  predicate ArtifactLinked(u: Inputs, a: Artifact) {
    exists r | r in u.revisions :: RestsOn(a, r.id)
  }

  predicate Linked(u: Inputs, w: Ledger) {
    && (forall a | a in w.artifacts :: ArtifactLinked(u, a))
    && (forall e | e in w.evaluations :: EvaluationLinked(u, e))
    && (forall p | p in w.plans :: PlanLinked(u, p))
    && (forall x | x in w.runs :: RunLinked(u, x))
  }

  /** Whose history an event extends. */
  predicate Extends(ev: Event, rid: Id) {
    match ev
    case Evaluated(e) => e.revisionId == rid
    case CurriculumPlanned(p) => p.revisionId == rid
    case PracticeCompleted(x) => RunServes(x, rid)
    case ArtifactCreated(a) => RestsOn(a, rid)
    case _ => false
  }

  lemma {:induction false} EvaluationsAppend(es: seq<Evaluation>, e: Evaluation, rid: Id)
    ensures EvaluationsOf(es + [e], rid) == EvaluationsOf(es, rid) + if e.revisionId == rid then [e] else []
  {
    if es != [] {
      EvaluationsAppend(es[1..], e, rid);
      assert (es + [e])[1..] == es[1..] + [e];
    }
  }

  lemma {:induction false} PlansAppend(ps: seq<Plan>, p: Plan, rid: Id)
    ensures PlansOf(ps + [p], rid) == PlansOf(ps, rid) + if p.revisionId == rid then [p] else []
  {
    if ps != [] {
      PlansAppend(ps[1..], p, rid);
      assert (ps + [p])[1..] == ps[1..] + [p];
    }
  }

  lemma {:induction false} RunsAppend(xs: seq<PracticeRun>, x: PracticeRun, rid: Id)
    ensures RunsFor(xs + [x], rid) == RunsFor(xs, rid) + if RunServes(x, rid) then [x] else []
  {
    hide RunServes;
    if xs != [] {
      RunsAppend(xs[1..], x, rid);
      assert (xs + [x])[1..] == xs[1..] + [x];
    }
  }

  lemma {:induction false} ArtifactsAppend(xs: seq<Artifact>, a: Artifact, rid: Id)
    ensures ArtifactsFor(xs + [a], rid) == ArtifactsFor(xs, rid) + if RestsOn(a, rid) then [a] else []
  {
    hide RestsOn;
    if xs != [] {
      ArtifactsAppend(xs[1..], a, rid);
      assert (xs + [a])[1..] == xs[1..] + [a];
    }
  }

  /** An event extends the histories it belongs to and leaves every other history alone. */
  lemma OwnAfter(w: Ledger, ev: Event, rid: Id)
    ensures Own(Note(w, ev), rid) == if Extends(ev, rid) then Note(Own(w, rid), ev) else Own(w, rid)
  {
    hide RunServes, RestsOn, EvaluationsOf, PlansOf, RunsFor, ArtifactsFor;
    match ev
    case Evaluated(e) => EvaluationsAppend(w.evaluations, e, rid);
    case CurriculumPlanned(p) => PlansAppend(w.plans, p, rid);
    case PracticeCompleted(x) => RunsAppend(w.runs, x, rid);
    case ArtifactCreated(a) => ArtifactsAppend(w.artifacts, a, rid);
    case _ =>
  }

  lemma {:induction false} OwnMembers(w: Ledger, rid: Id)
    ensures forall e :: e in EvaluationsOf(w.evaluations, rid) <==> e in w.evaluations && e.revisionId == rid
    ensures forall p :: p in PlansOf(w.plans, rid) <==> p in w.plans && p.revisionId == rid
    ensures forall x :: x in RunsFor(w.runs, rid) <==> x in w.runs && RunServes(x, rid)
    ensures forall a :: a in ArtifactsFor(w.artifacts, rid) <==> a in w.artifacts && RestsOn(a, rid)
    decreases Size(w)
  {
    hide RunServes, RestsOn;
    if w.evaluations != [] {
      OwnMembers(w.(evaluations := w.evaluations[1..]), rid);
      assert w.evaluations == [w.evaluations[0]] + w.evaluations[1..];
    } else if w.plans != [] {
      OwnMembers(w.(plans := w.plans[1..]), rid);
      assert w.plans == [w.plans[0]] + w.plans[1..];
    } else if w.runs != [] {
      OwnMembers(w.(runs := w.runs[1..]), rid);
      assert w.runs == [w.runs[0]] + w.runs[1..];
    } else if w.artifacts != [] {
      OwnMembers(w.(artifacts := w.artifacts[1..]), rid);
      assert w.artifacts == [w.artifacts[0]] + w.artifacts[1..];
    }
  }

  // --- Searching the whole log finds what the revision's own records hold -----------------

  lemma SplitsHead<T>(head: seq<T>, tail: seq<T>)
    requires |head| <= 1
    ensures head == [] ==> head + tail == tail
    ensures head != [] ==> (head + tail)[0] == head[0] && (head + tail)[1..] == tail
  {
  }

  /** Dropping or keeping the head, one step of every search over a history. */
  lemma OwnEvaluationsHead(es: seq<Evaluation>, rid: Id)
    requires es != []
    ensures es[0].revisionId == rid ==>
      EvaluationsOf(es, rid) != [] && EvaluationsOf(es, rid)[0] == es[0]
      && EvaluationsOf(es, rid)[1..] == EvaluationsOf(es[1..], rid)
    ensures es[0].revisionId != rid ==> EvaluationsOf(es, rid) == EvaluationsOf(es[1..], rid)
  {
    SplitsHead(if es[0].revisionId == rid then [es[0]] else [], EvaluationsOf(es[1..], rid));
  }

  lemma FindEvaluationHead(es: seq<Evaluation>, rid: Id, dataset: Digest)
    ensures es == [] ==> FindEvaluation(es, rid, dataset).None? && EvaluationsOf(es, rid) == []
    ensures es != [] ==>
      var rest := FindEvaluation(es[1..], rid, dataset);
      FindEvaluation(es, rid, dataset) == if es[0].revisionId == rid && es[0].dataset == dataset then Some(es[0]) else rest
  {
  }

  lemma {:induction false} FindEvaluationLocal(es: seq<Evaluation>, rid: Id, dataset: Digest)
    ensures FindEvaluation(EvaluationsOf(es, rid), rid, dataset) == FindEvaluation(es, rid, dataset)
  {
    hide EvaluationsOf, FindEvaluation;
    FindEvaluationHead(es, rid, dataset);
    FindEvaluationHead(EvaluationsOf(es, rid), rid, dataset);
    if es != [] {
      FindEvaluationLocal(es[1..], rid, dataset);
      OwnEvaluationsHead(es, rid);
    }
  }

  lemma {:induction false} FoundEvaluation(es: seq<Evaluation>, rid: Id, dataset: Digest)
    ensures var f := FindEvaluation(es, rid, dataset); f.Some? ==> f.value in es && f.value.revisionId == rid
  {
    hide FindEvaluation;
    FindEvaluationHead(es, rid, dataset);
    if es != [] { FoundEvaluation(es[1..], rid, dataset); }
  }

  lemma {:induction false} AcceptedLocal(es: seq<Evaluation>, rid: Id)
    ensures AcceptedOf(EvaluationsOf(es, rid), rid) == AcceptedOf(es, rid)
  {
    if es != [] {
      AcceptedLocal(es[1..], rid);
      SplitsHead(if es[0].revisionId == rid then [es[0]] else [], EvaluationsOf(es[1..], rid));
    }
  }

  lemma {:induction false} RunsLocal(u: Inputs, xs: seq<PracticeRun>, rid: Id, pid: Id)
    requires forall x | x in xs :: RunLinked(u, x)
    requires pid.CurriculumId? && pid.identity.OfPlanIdentity? && pid.identity.evaluationHash.OfEvaluation?
    requires pid.identity.evaluationHash.evaluation.revisionId == rid
    ensures RunsOf(RunsFor(xs, rid), pid) == RunsOf(xs, pid)
  {
    if xs != [] {
      assert xs == [xs[0]] + xs[1..];
      RunsLocal(u, xs[1..], rid, pid);
      assert RunLinked(u, xs[0]);
      assert xs[0].curriculumId == pid ==> RunServes(xs[0], rid);
      SplitsHead(if RunServes(xs[0], rid) then [xs[0]] else [], RunsFor(xs[1..], rid));
    }
  }

  lemma {:induction false} FindPlanLocal(u: Inputs, ps: seq<Plan>, r: Revision, evaluationId: Id)
    requires Consistent(u) && r in u.revisions && forall p | p in ps :: PlanLinked(u, p)
    requires evaluationId.EvaluationId? && evaluationId.revisionHash == OfRevision(r)
    ensures FindPlan(PlansOf(ps, r.id), evaluationId) == FindPlan(ps, evaluationId)
    ensures var f := FindPlan(ps, evaluationId); f.Some? ==> PlanLinked(u, f.value) && f.value.revisionId == r.id
  {
    if ps != [] {
      assert ps == [ps[0]] + ps[1..];
      FindPlanLocal(u, ps[1..], r, evaluationId);
      assert PlanLinked(u, ps[0]);
      assert ps[0].evaluationId == evaluationId ==> ps[0].revisionId == r.id;
      SplitsHead(if ps[0].revisionId == r.id then [ps[0]] else [], PlansOf(ps[1..], r.id));
    }
  }

  lemma {:induction false} DatasetLocal(u: Inputs, ps: seq<Plan>, xs: seq<PracticeRun>, rid: Id)
    requires (forall p | p in ps :: PlanLinked(u, p)) && forall x | x in xs :: RunLinked(u, x)
    ensures PracticeDataset(rid, PlansOf(ps, rid), RunsFor(xs, rid)) == PracticeDataset(rid, ps, xs)
  {
    if ps != [] {
      assert ps == [ps[0]] + ps[1..];
      DatasetLocal(u, ps[1..], xs, rid);
      assert PlanLinked(u, ps[0]);
      SplitsHead(if ps[0].revisionId == rid then [ps[0]] else [], PlansOf(ps[1..], rid));
      if ps[0].revisionId == rid {
        RunsLocal(u, xs, rid, ps[0].id);
      }
    }
  }

  /** Advancing a revision reads nothing but its own records. */
  lemma AdvanceLocal(u: Inputs, env: Env, m: Material, w: Ledger)
    requires Consistent(u) && Linked(u, w) && m.Valid() && m.r in u.revisions
    ensures Advance(env, m.r, m.cs, m.sources, w) == Advance(env, m.r, m.cs, m.sources, Own(w, m.r.id))
  {
    hide Evaluate, BootstrapDataset, Practise, BroadPlan, Freeze, PracticeDataset, FindEvaluation, EvaluationLinked;
    var own := Own(w, m.r.id);
    DatasetLocal(u, w.plans, w.runs, m.r.id);
    var cases := Dataset(m.r, w, m.sources);
    FindEvaluationLocal(w.evaluations, m.r.id, OfDataset(cases));
    FoundEvaluation(w.evaluations, m.r.id, OfDataset(cases));
    var found := FindEvaluation(w.evaluations, m.r.id, OfDataset(cases));
    if found.Some? {
      LinkedEvaluation(u, m.r, found.value);
      AfterEvaluationLocal(u, env, m, w, found.value);
    } else if Judge(m, cases).Ok? {
      var e := Judge(m, cases).value;
      VerdictIsJudged(m, cases);
      OwnAfter(w, Evaluated(e), m.r.id);
      assert EvaluationLinked(u, e) by { EvaluationLinks(u, m, cases, e); }
      AfterEvaluationLocal(u, env, m, Note(w, Evaluated(e)), e);
    }
  }

  lemma EvaluationLinks(u: Inputs, m: Material, cases: seq<Case>, e: Evaluation)
    requires m.r in u.revisions && JudgedFor(m, cases, e)
    ensures EvaluationLinked(u, e)
  {
  }

  lemma LinkedEvaluation(u: Inputs, r: Revision, e: Evaluation)
    requires Consistent(u) && r in u.revisions && EvaluationLinked(u, e) && e.revisionId == r.id
    ensures e.id == EvaluationId(OfRevision(r), e.dataset, OfBundle) && e.bundle == OfBundle
  {
    var q :| q in u.revisions && e.revisionId == q.id && e.bundle == OfBundle
      && e.id == EvaluationId(OfRevision(q), e.dataset, OfBundle);
    assert Known(RevisionKey, u.revisions, q) && Known(RevisionKey, u.revisions, r);
  }

  lemma AfterEvaluationLocal(u: Inputs, env: Env, m: Material, w: Ledger, e: Evaluation)
    requires Consistent(u) && Linked(u, w) && m.Valid() && m.r in u.revisions
    requires e.revisionId == m.r.id && e.id == EvaluationId(OfRevision(m.r), e.dataset, OfBundle)
    requires EvaluationLinked(u, e)
    ensures AfterEvaluation(env, m.r, m.cs, w, e) == AfterEvaluation(env, m.r, m.cs, Own(w, m.r.id), e)
  {
    hide PlanFor, Practise, Freeze, RunsOf, FindPlan, ValidSnapshot, EvaluationLinked;
    if e.decision == NeedsExperiment {
      FindPlanLocal(u, w.plans, m.r, e.id);
      var found := FindPlan(w.plans, e.id);
      if found.Some? {
        RunsLocal(u, w.runs, m.r.id, found.value.id);
      } else if BroadPlan(m.r, m.cs, e, env.words).Ok? {
        BroadPlanIsNamed(m, e, env.words);
        RunsLocal(u, w.runs, m.r.id, BroadPlan(m.r, m.cs, e, env.words).value.id);
      }
    } else {
      AcceptedLocal(w.evaluations, m.r.id);
    }
  }

  lemma BroadPlanIsNamed(m: Material, e: Evaluation, words: Candidate -> Words)
    requires BroadPlan(m.r, m.cs, e, words).Ok?
    ensures var p := BroadPlan(m.r, m.cs, e, words).value;
      && p.id.CurriculumId? && p.id.identity.OfPlanIdentity? && p.id.identity.evaluationHash == OfEvaluation(e)
      && p.evaluationId == e.id && p.revisionId == e.revisionId
  {
    hide TasksOf, ValidPlan, Plannable, Dedupe;
  }

  // --- A revision's turn posts the protocol's next records --------------------------------

  /** Each record is the protocol's next one at the moment it is posted; raw practice handoffs are not records. */
  predicate Follows(env: Env, m: Material, own: Ledger, posts: seq<Event>)
    requires m.Valid()
    decreases |posts|
  {
    posts == [] ||
    ((posts[0].HandoffPosted? || Next(env, m, own) == Some(posts[0])) && Follows(env, m, Note(own, posts[0]), posts[1..]))
  }

  lemma FollowsFirst(env: Env, m: Material, own: Ledger, ev: Event, rest: seq<Event>)
    requires m.Valid() && (ev.HandoffPosted? || Next(env, m, own) == Some(ev)) && Follows(env, m, Note(own, ev), rest)
    ensures Follows(env, m, own, [ev] + rest)
  {
    assert ([ev] + rest)[1..] == rest;
  }

  /** The plan being practised: the first while its own evaluation is the only one, else the second. */
  predicate Current(own: Ledger, p: Plan) {
    (own.plans == [p] && |own.evaluations| == 1) || (|own.plans| == 2 && own.plans[1] == p)
  }

  lemma {:induction false} NextRunSkips(env: Env, p: Plan, tasks: seq<Task>, k: nat, runs: seq<PracticeRun>)
    requires k <= |tasks|
    requires forall j | 0 <= j < k :: tasks[j].id in Answered(runs, p.id) || env.runner(p, tasks[j]).None?
    ensures NextRun(env, p, tasks, runs) == NextRun(env, p, tasks[k..], runs)
  {
    if k > 0 {
      NextRunSkips(env, p, tasks[1..], k - 1, runs);
      assert tasks[1..][k - 1..] == tasks[k..];
    }
  }

  lemma NextRunEnds(env: Env, p: Plan, runs: seq<PracticeRun>)
    ensures NextRun(env, p, p.tasks[|p.tasks|..], runs).None?
  {
  }

  /** An unanswered task whose answer closes its run is the next run from there. */
  lemma NextRunTakes(env: Env, p: Plan, k: nat, runs: seq<PracticeRun>, x: PracticeRun)
    requires k < |p.tasks| && p.tasks[k].id !in Answered(runs, p.id) && env.runner(p, p.tasks[k]).Some?
    requires CompleteRun(BeginRun(p, p.tasks[k]), env.runner(p, p.tasks[k]).value) == Ok(x)
    ensures NextRun(env, p, p.tasks[k..], runs) == Some(PracticeCompleted(x))
  {
  }

  predicate DistinctTasks(p: Plan) { forall i, j | 0 <= i < j < |p.tasks| :: p.tasks[i].id != p.tasks[j].id }

  /** While a task of the current plan is unanswered, the protocol's next record is that plan's next run. */
  lemma NextIsRun(env: Env, m: Material, own: Ledger, p: Plan, t: Task)
    requires m.Valid() && Shape(env.words, m, own) && own.artifacts == [] && Current(own, p)
    requires t in p.tasks && t.id !in Answered(own.runs, p.id)
    ensures Next(env, m, own) == NextRun(env, p, p.tasks, own.runs)
  {
    assert t.id in TaskIds(p);
  }

  /** An answered task posts a raw handoff and its run, and practice goes on from there. */
  lemma AnswerThenRest(env: Env, m: Material, own: Ledger, raw: Event, x: PracticeRun, rest: seq<Event>)
    requires m.Valid() && raw.HandoffPosted? && Next(env, m, own) == Some(PracticeCompleted(x))
    requires Follows(env, m, Note(own, PracticeCompleted(x)), rest)
    ensures Follows(env, m, own, [raw, PracticeCompleted(x)] + rest)
    ensures NoteAll(own, [raw, PracticeCompleted(x)] + rest) == NoteAll(Note(own, PracticeCompleted(x)), rest)
  {
    hide Next;
    FollowsFirst(env, m, own, PracticeCompleted(x), rest);
    FollowsFirst(env, m, own, raw, [PracticeCompleted(x)] + rest);
    assert [raw, PracticeCompleted(x)] + rest == [raw] + ([PracticeCompleted(x)] + rest);
    NoteOne(own, raw);
    NoteOne(own, PracticeCompleted(x));
    NoteAllConcat(own, [raw], [PracticeCompleted(x)] + rest);
    NoteAllConcat(own, [PracticeCompleted(x)], rest);
  }

  /** Some open task has an answer that does not close its run. */
  predicate Blocked(env: Env, p: Plan, tasks: seq<Task>, runs: seq<PracticeRun>) {
    exists t | t in tasks :: t.id !in Answered(runs, p.id) && env.runner(p, t).Some?
      && CompleteRun(BeginRun(p, t), env.runner(p, t).value).Raised?
  }

  lemma BlockedHere(env: Env, p: Plan, k: nat, runs: seq<PracticeRun>)
    requires k < |p.tasks| && p.tasks[k].id !in Answered(runs, p.id) && env.runner(p, p.tasks[k]).Some?
    requires CompleteRun(BeginRun(p, p.tasks[k]), env.runner(p, p.tasks[k]).value).Raised?
    ensures Blocked(env, p, p.tasks, runs) && NextRun(env, p, p.tasks[k..], runs).None?
  {
    assert p.tasks[k] in p.tasks;
  }

  lemma {:induction false} PractiseFollows(env: Env, m: Material, own: Ledger, p: Plan, k: nat, answered: set<Id>)
    requires m.Valid() && Shape(env.words, m, own) && own.artifacts == [] && Current(own, p)
    requires k <= |p.tasks| && DistinctTasks(p)
    requires forall j | 0 <= j < k :: p.tasks[j].id in Answered(own.runs, p.id) || env.runner(p, p.tasks[j]).None?
    requires forall j | k <= j < |p.tasks| :: p.tasks[j].id in Answered(own.runs, p.id) <==> p.tasks[j].id in answered
    ensures var s := Practise(env, p, p.tasks[k..], answered);
      var after := NoteAll(own, s.posts);
      && Follows(env, m, own, s.posts)
      && after == own.(runs := after.runs)
      && NextRun(env, p, p.tasks, after.runs).None?
      && (!s.ok ==> Blocked(env, p, p.tasks, after.runs))
    decreases |p.tasks| - k
  {
    hide Shape, Next, Answered, RunsOf, Closes, NextRun, Blocked;
    NextRunSkips(env, p, p.tasks, k, own.runs);
    if k == |p.tasks| {
      NextRunEnds(env, p, own.runs);
    } else {
      var t := p.tasks[k];
      assert p.tasks[k..][0] == t && p.tasks[k..][1..] == p.tasks[k + 1..];
      var turn := PractiseTask(env, p, t, answered);
      if turn == NOTHING {
        PractiseFollows(env, m, own, p, k + 1, answered);
        var rest := Practise(env, p, p.tasks[k + 1..], answered).posts;
        assert [] + rest == rest;
      } else if !turn.ok {
        assert turn.posts[1..] == [];
        NoteOne(own, turn.posts[0]);
        BlockedHere(env, p, k, own.runs);
      } else {
        var x := turn.posts[1].run;
        NextIsRun(env, m, own, p, t);
        NextRunTakes(env, p, k, own.runs, x);
        assert NextRun(env, p, p.tasks, own.runs) == Some(PracticeCompleted(x));
        var after := Note(own, PracticeCompleted(x));
        NextKeepsShape(env, m, own);
        AnswerCounts(own, p, x, t);
        PractiseFollows(env, m, after, p, k + 1, answered);
        AnswerThenRest(env, m, own, turn.posts[0], x, Practise(env, p, p.tasks[k + 1..], answered).posts);
      }
    }
  }

  lemma AnswerCounts(own: Ledger, p: Plan, x: PracticeRun, t: Task)
    requires x.curriculumId == p.id && x.taskId == t.id
    ensures Answered(own.runs + [x], p.id) == Answered(own.runs, p.id) + {t.id}
  {
    RunsOfMembers(own.runs, p.id);
    RunsOfMembers(own.runs + [x], p.id);
  }

  /** Practising a plan of a well-formed history from its first task. */
  lemma PlanPractised(env: Env, m: Material, own: Ledger, p: Plan, e: Evaluation)
    requires m.Valid() && Shape(env.words, m, own) && own.artifacts == [] && Current(own, p) && PlanFrom(e, p)
    ensures var s := Practise(env, p, p.tasks, Answered(own.runs, p.id));
      var after := NoteAll(own, s.posts);
      && Follows(env, m, own, s.posts)
      && after == own.(runs := after.runs)
      && NextRun(env, p, p.tasks, after.runs).None?
      && (!s.ok ==> Blocked(env, p, p.tasks, after.runs))
  {
    hide Shape, Practise, Follows, NextRun, RunsOf, NoteAll, Blocked;
    assert p.tasks[0..] == p.tasks;
    PractiseFollows(env, m, own, p, 0, Answered(own.runs, p.id));
  }

  /** The first practice is over for now: its plan is practised, or no open task has an answer. */
  predicate Settled(env: Env, own: Ledger) {
    && own.evaluations != [] && own.plans != []
    && (Practised(own.plans[0], own.runs) || NextRun(env, own.plans[0], own.plans[0].tasks, own.runs).None?)
  }

  /** After the evaluation at hand is on record: plan and practise, or freeze, or stop. */
  lemma AfterEvaluationFollows(env: Env, m: Material, own: Ledger, e: Evaluation)
    requires m.Valid() && Shape(env.words, m, own) && own.artifacts == []
    requires
      || (own.evaluations == [e] && (own.plans != [] ==> !Practised(own.plans[0], own.runs)))
      || (|own.evaluations| == 2 && own.evaluations[1] == e)
    ensures var s := AfterEvaluation(env, m.r, m.cs, own, e);
      var after := NoteAll(own, s.posts);
      && Follows(env, m, own, s.posts) && after.evaluations == own.evaluations
      && (s.ok && |own.evaluations| == 1 ==> Settled(env, after))
      && (s.ok && |own.evaluations| == 2 ==> Next(env, m, after).None?)
  {
    hide Judge, BroadPlan, Practise, Practised, PracticeCases, RunsOf, BootstrapDataset, Freezes, NextRun,
      FreezeStep, RunOf, DistinctRuns, PlanFrom, NoteAll, Follows;
    PlansOfShape(env.words, m, own);
    var es, ps := own.evaluations, own.plans;
    if e.decision == NeedsExperiment {
      PlanLookup(env, m, own, e);
      if |ps| == |es| {
        PlanPractised(env, m, own, ps[|ps| - 1], e);
        if |es| == 2 { PractisedStays(env, m, own, Practise(env, ps[1], ps[1].tasks, Answered(own.runs, ps[1].id)).posts); }
      } else if BroadPlan(m.r, m.cs, e, env.words).Ok? {
        var p := BroadPlan(m.r, m.cs, e, env.words).value;
        var after := Note(own, CurriculumPlanned(p));
        assert Next(env, m, own) == Some(CurriculumPlanned(p));
        NextKeepsShape(env, m, own);
        PlansOfShape(env.words, m, after);
        PlanPractised(env, m, after, p, e);
        var rest := Practise(env, p, p.tasks, Answered(own.runs, p.id)).posts;
        FollowsFirst(env, m, own, CurriculumPlanned(p), rest);
        NoteOne(own, CurriculumPlanned(p));
        NoteAllConcat(own, [CurriculumPlanned(p)], rest);
        if |es| == 2 { PractisedStays(env, m, after, rest); }
      } else {
        NoteNone(own);
        FollowsNothing(env, m, own);
      }
    } else if e.decision == Accepted {
      FreezeFollows(env, m, own);
    } else {
      NoteNone(own);
      FollowsNothing(env, m, own);
    }
  }

  lemma FollowsNothing(env: Env, m: Material, own: Ledger)
    requires m.Valid()
    ensures Follows(env, m, own, [])
  {
  }

  lemma {:induction false} FollowsKeepsShape(env: Env, m: Material, own: Ledger, posts: seq<Event>)
    requires m.Valid() && Shape(env.words, m, own) && Follows(env, m, own, posts)
    ensures Shape(env.words, m, NoteAll(own, posts))
    decreases |posts|
  {
    hide Shape, Next;
    if posts != [] {
      if !posts[0].HandoffPosted? { NextKeepsShape(env, m, own); }
      FollowsKeepsShape(env, m, Note(own, posts[0]), posts[1..]);
    }
  }

  /** Practising a second plan leaves the first one practised. */
  lemma PractisedStays(env: Env, m: Material, own: Ledger, posts: seq<Event>)
    requires m.Valid() && Shape(env.words, m, own) && |own.evaluations| == 2 && Follows(env, m, own, posts)
    requires NoteAll(own, posts) == own.(runs := NoteAll(own, posts).runs)
    ensures Practised(own.plans[0], NoteAll(own, posts).runs)
  {
    hide Judge, BroadPlan, Practised, PracticeCases, RunsOf, BootstrapDataset, Freezes, RunOf, DistinctRuns;
    FollowsKeepsShape(env, m, own, posts);
  }

  lemma PlanLookup(env: Env, m: Material, own: Ledger, e: Evaluation)
    requires m.Valid() && Shape(env.words, m, own) && e in own.evaluations && e == own.evaluations[|own.evaluations| - 1]
    requires e.decision == NeedsExperiment
    ensures FindPlan(own.plans, e.id)
      == if |own.plans| == |own.evaluations| then Some(own.plans[|own.plans| - 1]) else None
    ensures |own.plans| == |own.evaluations| ==> PlanFrom(e, own.plans[|own.plans| - 1])
  {
    hide Judge, BroadPlan, Practised, PracticeCases, RunsOf, BootstrapDataset, Freezes, RunOf, DistinctRuns;
    PlansOfShape(env.words, m, own);
    var ps := own.plans;
    if |ps| == 2 {
      assert ps[1..] == [ps[1]];
    } else if |ps| == 1 {
      assert ps[1..] == [];
    }
  }

  lemma FreezeFollows(env: Env, m: Material, own: Ledger)
    requires m.Valid() && Shape(env.words, m, own) && own.artifacts == []
    requires |own.evaluations| == 2 && own.evaluations[1].decision == Accepted
    ensures var s := FreezeStep(env, m.r, m.cs, own);
      var after := NoteAll(own, s.posts);
      Follows(env, m, own, s.posts) && after.evaluations == own.evaluations && (s.ok ==> Next(env, m, after).None?)
  {
    hide Judge, BroadPlan, PracticeCases, BootstrapDataset, Freezes, RunOf, DistinctRuns, ValidSnapshot, Freeze, Guarded;
    var s := FreezeStep(env, m.r, m.cs, own);
    if s.posts != [] {
      assert s.posts == [s.posts[0]] && s.posts[1..] == [];
      assert Next(env, m, own) == Frozen(env, m, own) == Some(s.posts[0]);
    } else {
      assert NoteAll(own, s.posts) == own;
    }
  }

  /** The dataset a turn starts from: practice once the first plan is practised, bootstrap until then. */
  lemma DatasetOfShape(env: Env, m: Material, own: Ledger)
    requires m.Valid() && Shape(env.words, m, own)
    ensures Dataset(m.r, own, m.sources)
      == if own.plans != [] && Practised(own.plans[0], own.runs) then PracticeCasesOf(own) else m.Bootstrap()
  {
    hide Judge, BroadPlan, Practised, PracticeCases, RunsOf, BootstrapDataset, Freezes, RunOf, DistinctRuns;
    PlansOfShape(env.words, m, own);
    var ps := own.plans;
    if |ps| >= 1 {
      assert own.evaluations[0] in own.evaluations;
      assert ps[0].revisionId == m.r.id;
      if !Practised(ps[0], own.runs) {
        assert ps[1..] == [];
        assert PracticeDataset(m.r.id, ps[1..], own.runs) == None;
        assert PracticeDataset(m.r.id, ps, own.runs) == None;
      } else {
        assert PracticeDataset(m.r.id, ps, own.runs) == Some(PracticeCasesOf(own));
      }
    }
  }

  lemma FindAmongTwo(es: seq<Evaluation>, rid: Id, dataset: Digest)
    requires |es| <= 2 && forall e | e in es :: e.revisionId == rid
    ensures FindEvaluation(es, rid, dataset) ==
      if |es| >= 1 && es[0].dataset == dataset then Some(es[0])
      else if |es| == 2 && es[1].dataset == dataset then Some(es[1]) else None
  {
    if |es| == 2 { assert es[1..] == [es[1]] && [es[1]][1..] == []; assert es[1] in es; }
    if |es| >= 1 { assert es[0] in es; }
  }

  /** The first plan is practised, so this turn judges the practice. */
  predicate Judging(own: Ledger) { own.plans != [] && Practised(own.plans[0], own.runs) }

  /** What a turn finds: the evaluation it goes on from, or a dataset that the protocol judges next. */
  lemma TurnFinds(env: Env, m: Material, own: Ledger)
    requires m.Valid() && Shape(env.words, m, own) && own.artifacts == []
    ensures var es, cases := own.evaluations, Dataset(m.r, own, m.sources);
      var found := FindEvaluation(es, m.r.id, OfDataset(cases));
      && (|es| == 2 ==> Judging(own) && found == Some(es[1]))
      && (|es| == 1 && !Judging(own) ==> found == Some(es[0]))
      && (|es| <= 1 && (es == [] || Judging(own)) ==> found.None? && Next(env, m, own) == Judged(m, cases))
      && (es == [] ==> !Judging(own))
  {
    hide Evaluate, BroadPlan, Practised, PracticeCases, RunsOf, BootstrapDataset, Freezes, NextRun, RunOf,
      DistinctRuns, Dataset, Frozen;
    PlansOfShape(env.words, m, own);
    DatasetOfShape(env, m, own);
    var es := own.evaluations;
    assert forall i | 0 <= i < |es| :: es[i] in es;
    FindAmongTwo(es, m.r.id, OfDataset(Dataset(m.r, own, m.sources)));
  }

  /** A turn on a well-formed history that is not frozen yet. */
  lemma AdvanceFollows(env: Env, m: Material, own: Ledger)
    requires m.Valid() && Shape(env.words, m, own) && own.artifacts == []
    ensures var s := Advance(env, m.r, m.cs, m.sources, own);
      var after := NoteAll(own, s.posts);
      && Follows(env, m, own, s.posts)
      && (!Judging(own) ==> |after.evaluations| <= 1)
      && (s.ok ==> Settled(env, after) && (Judging(own) ==> Next(env, m, after).None?))
  {
    hide Evaluate, Shape, Next, Dataset, AfterEvaluation, NoteAll, Follows, Judging, Settled, FindEvaluation;
    TurnFinds(env, m, own);
    EvaluationBound(env.words, m, own);
    var es := own.evaluations;
    var cases := Dataset(m.r, own, m.sources);
    if |es| == 2 {
      TurnFrom(env, m, own, es[1]);
    } else if |es| == 1 && !Judging(own) {
      assert es == [es[0]];
      TurnFrom(env, m, own, es[0]);
    } else if Judge(m, cases).Ok? {
      var e := Judge(m, cases).value;
      var after := Note(own, Evaluated(e));
      NextKeepsShape(env, m, own);
      NotJudging(own, e);
      TurnFrom(env, m, after, e);
      var rest := AfterEvaluation(env, m.r, m.cs, after, e).posts;
      FollowsFirst(env, m, own, Evaluated(e), rest);
      NoteOne(own, Evaluated(e));
      NoteAllConcat(own, [Evaluated(e)], rest);
    } else {
      NoteNone(own);
      FollowsNothing(env, m, own);
    }
  }

  lemma EvaluationBound(words: Candidate -> Words, m: Material, own: Ledger)
    requires m.Valid() && Shape(words, m, own)
    ensures |own.evaluations| <= 2
  {
  }

  lemma NotJudging(own: Ledger, e: Evaluation)
    ensures Judging(Note(own, Evaluated(e))) <==> Judging(own)
  {
  }

  lemma TurnFrom(env: Env, m: Material, own: Ledger, e: Evaluation)
    requires m.Valid() && Shape(env.words, m, own) && own.artifacts == []
    requires (own.evaluations == [e] && !Judging(own)) || (|own.evaluations| == 2 && own.evaluations[1] == e)
    ensures var s := AfterEvaluation(env, m.r, m.cs, own, e);
      var after := NoteAll(own, s.posts);
      && Follows(env, m, own, s.posts) && after.evaluations == own.evaluations
      && (s.ok ==> Settled(env, after) && (|own.evaluations| == 2 ==> Next(env, m, after).None?))
  {
    hide Judge, BroadPlan, Practised, PracticeCases, RunsOf, BootstrapDataset, Freezes, RunOf, DistinctRuns,
      AfterEvaluation, Follows, NextRun;
    AfterEvaluationFollows(env, m, own, e);
    FollowsKeepsShape(env, m, own, AfterEvaluation(env, m.r, m.cs, own, e).posts);
  }

  // --- The whole log ----------------------------------------------------------------------

  predicate HistoryOk(u: Inputs, words: Candidate -> Words, r: Revision, own: Ledger) {
    own == NO_RECORDS || (HasMaterial(u, r) && Shape(words, MaterialOf(u, r), own))
  }

  /** The invariant of the log: every record names its revision, and every history is well formed. */
  predicate Inv(u: Inputs, words: Candidate -> Words, w: Ledger) {
    && Consistent(u) && Linked(u, w)
    && forall r | r in u.revisions :: HistoryOk(u, words, r, Own(w, r.id))
  }

  /** An event the protocol allows: the next record of some revision, or a raw practice handoff. */
  predicate LegalStep(u: Inputs, env: Env, w: Ledger, ev: Event) {
    ev.HandoffPosted? ||
    exists r | r in u.revisions :: HasMaterial(u, r) && Next(env, MaterialOf(u, r), Own(w, r.id)) == Some(ev)
  }

  predicate Legal(u: Inputs, env: Env, w: Ledger, posts: seq<Event>)
    decreases |posts|
  {
    posts == [] || (LegalStep(u, env, w, posts[0]) && Legal(u, env, Note(w, posts[0]), posts[1..]))
  }

  lemma {:induction false} LegalConcat(u: Inputs, env: Env, w: Ledger, a: seq<Event>, b: seq<Event>)
    requires Legal(u, env, w, a) && Legal(u, env, NoteAll(w, a), b)
    ensures Legal(u, env, w, a + b)
    decreases |a|
  {
    if a == [] {
      assert a + b == b;
    } else {
      LegalConcat(u, env, Note(w, a[0]), a[1..], b);
      assert (a + b)[1..] == a[1..] + b;
    }
  }

  lemma {:induction false} LegalPrefix(u: Inputs, env: Env, w: Ledger, posts: seq<Event>, k: nat)
    requires Legal(u, env, w, posts) && k <= |posts|
    ensures Legal(u, env, w, posts[..k])
    decreases k
  {
    if k > 0 {
      LegalPrefix(u, env, Note(w, posts[0]), posts[1..], k - 1);
      assert posts[..k][1..] == posts[1..][..k - 1];
    }
  }

  /** The empty history is the well-formed start of every revision with material. */
  lemma EmptyShape(words: Candidate -> Words, m: Material)
    requires m.Valid()
    ensures Shape(words, m, NO_RECORDS)
  {
  }

  /** Every record of a well-formed history belongs to its revision and to no other. */
  lemma HistoryIsOwn(words: Candidate -> Words, m: Material, own: Ledger)
    requires m.Valid() && Shape(words, m, own)
    ensures forall e | e in own.evaluations :: e.revisionId == m.r.id
    ensures forall p | p in own.plans :: p.revisionId == m.r.id
    ensures forall x, rid | x in own.runs :: RunServes(x, rid) <==> rid == m.r.id
    ensures forall a, rid | a in own.artifacts :: RestsOn(a, rid) <==> rid == m.r.id
  {
    hide Judge, BroadPlan, Practised, PracticeCases, RunsOf, BootstrapDataset, Freezes, DistinctRuns, RestsOn, RunServes,
      RunOf, PlanFrom;
    PlansOfShape(words, m, own);
    forall p | p in own.plans ensures p.revisionId == m.r.id {
      var i :| 0 <= i < |own.plans| && own.plans[i] == p;
      assert own.evaluations[i] in own.evaluations;
      PlanNames(own.evaluations[i], p);
    }
    forall x, rid | x in own.runs ensures RunServes(x, rid) <==> rid == m.r.id {
      var p :| p in own.plans && RunOf(p, x);
      RunServesPlan(p, x, rid);
    }
    forall a, rid | a in own.artifacts ensures RestsOn(a, rid) <==> rid == m.r.id {
      assert own.evaluations[1] in own.evaluations;
      ArtifactRests(m, own.evaluations[1], a);
    }
  }

  lemma RunServesPlan(p: Plan, x: PracticeRun, rid: Id)
    requires RunOf(p, x)
    ensures RunServes(x, rid) <==> p.revisionId == rid
  {
  }

  lemma NextExtends(env: Env, m: Material, own: Ledger)
    requires m.Valid() && Shape(env.words, m, own) && Next(env, m, own).Some?
    ensures forall rid :: Extends(Next(env, m, own).value, rid) <==> rid == m.r.id
    ensures !Next(env, m, own).value.HandoffPosted?
  {
    hide Next, Shape, RunServes, RestsOn;
    var ev := Next(env, m, own).value;
    var after := Note(own, ev);
    NextKeepsShape(env, m, own);
    HistoryIsOwn(env.words, m, after);
    NextKind(env, m, own);
    match ev
    case Evaluated(e) => assert e in after.evaluations;
    case CurriculumPlanned(p) => assert p in after.plans;
    case PracticeCompleted(x) => assert x in after.runs;
    case ArtifactCreated(a) => assert a in after.artifacts;
    case _ =>
  }

  lemma ArtifactRests(m: Material, e: Evaluation, a: Artifact)
    requires Freezes(m, e, a) && e.revisionId == m.r.id
    ensures forall rid :: RestsOn(a, rid) <==> rid == m.r.id
  {
    assert OfEvaluation(e) in a.id.evaluations;
  }

  lemma NextKind(env: Env, m: Material, own: Ledger)
    requires m.Valid() && Shape(env.words, m, own) && Next(env, m, own).Some?
    ensures var ev := Next(env, m, own).value;
      && (ev.Evaluated? || ev.CurriculumPlanned? || ev.PracticeCompleted? || ev.ArtifactCreated?)
      && (ev.ArtifactCreated? ==> own.artifacts == [])
  {
    hide Judge, BroadPlan, Practised, PracticeCases, RunsOf, BootstrapDataset, Freezes, RunOf, DistinctRuns;
    var es, ps := own.evaluations, own.plans;
    if ps != [] { NextRunIsNew(env, ps[0], ps[0].tasks, own.runs); }
    if |ps| == 2 { NextRunIsNew(env, ps[1], ps[1].tasks, own.runs); }
    if |es| == 2 && es[1].decision == Accepted {
      PlansOfShape(env.words, m, own);
      assert es[1] in es;
      FrozenIsGuarded(env, m, own);
    }
  }

  lemma HistoryIsLinked(u: Inputs, words: Candidate -> Words, m: Material, own: Ledger)
    requires m.Valid() && m.r in u.revisions && Shape(words, m, own)
    ensures Linked(u, own)
  {
    hide Judge, BroadPlan, Practised, PracticeCases, RunsOf, BootstrapDataset, Freezes, DistinctRuns, RestsOn, RunServes;
    PlansOfShape(words, m, own);
    HistoryIsOwn(words, m, own);
    forall p | p in own.plans ensures PlanLinked(u, p) {
      var i :| 0 <= i < |own.plans| && own.plans[i] == p;
      assert own.evaluations[i] in own.evaluations;
    }
    forall a | a in own.artifacts ensures ArtifactLinked(u, a) {
      assert RestsOn(a, m.r.id);
    }
  }

  lemma NextIsLinked(u: Inputs, env: Env, m: Material, w: Ledger, ev: Event)
    requires m.Valid() && m.r in u.revisions && Linked(u, w)
    requires Shape(env.words, m, Own(w, m.r.id)) && Next(env, m, Own(w, m.r.id)) == Some(ev)
    ensures Linked(u, Note(w, ev))
  {
    hide Next, Shape, EvaluationLinked, PlanLinked, RunLinked, ArtifactLinked, Own;
    var after := Note(Own(w, m.r.id), ev);
    NextKeepsShape(env, m, Own(w, m.r.id));
    HistoryIsLinked(u, env.words, m, after);
    match ev
    case Evaluated(e) => assert e in after.evaluations;
    case CurriculumPlanned(p) => assert p in after.plans;
    case PracticeCompleted(x) => assert x in after.runs;
    case ArtifactCreated(a) => assert a in after.artifacts;
    case _ =>
  }

  /** A record new to its history is new to the log: an id names the revision it was made for. */
  lemma EvaluationIsFresh(u: Inputs, words: Candidate -> Words, m: Material, w: Ledger, e: Evaluation)
    requires m.Valid() && m.r in u.revisions && Linked(u, w)
    requires Shape(words, m, Note(Own(w, m.r.id), Evaluated(e)))
    ensures !HasKey(EvaluationKey, w.evaluations, e.id)
  {
    hide Shape, PlanLinked, RunLinked, ArtifactLinked;
    NewEvaluation(words, m, Own(w, m.r.id), e);
    OwnMembers(w, m.r.id);
    forall i | 0 <= i < |w.evaluations| ensures EvaluationKey(w.evaluations[i]) != e.id {
      var f := w.evaluations[i];
      assert f in w.evaluations && EvaluationLinked(u, f);
      assert f in Own(w, m.r.id).evaluations <==> f.revisionId == m.r.id;
    }
  }

  lemma NewEvaluation(words: Candidate -> Words, m: Material, own: Ledger, e: Evaluation)
    requires m.Valid() && Shape(words, m, Note(own, Evaluated(e)))
    ensures e.id == EvaluationId(OfRevision(m.r), e.dataset, OfBundle)
    ensures forall f | f in own.evaluations :: f.id != e.id
  {
    hide Judge, BroadPlan, Practised, PracticeCases, RunsOf, BootstrapDataset, Freezes, DistinctRuns, PlanFrom, RunOf;
    var after := Note(own, Evaluated(e));
    PlansOfShape(words, m, after);
    assert e in after.evaluations && e == after.evaluations[|own.evaluations|];
    assert forall f | f in own.evaluations :: f == after.evaluations[0];
  }

  lemma PlanIsFresh(u: Inputs, words: Candidate -> Words, m: Material, w: Ledger, p: Plan)
    requires m.Valid() && m.r in u.revisions && Linked(u, w)
    requires Shape(words, m, Note(Own(w, m.r.id), CurriculumPlanned(p)))
    ensures !HasKey(PlanKey, w.plans, p.id)
  {
    hide Shape, EvaluationLinked, RunLinked;
    var own := Own(w, m.r.id);
    var after := Note(own, CurriculumPlanned(p));
    NewPlan(words, m, own, p);
    OwnMembers(w, m.r.id);
    forall i | 0 <= i < |w.plans| ensures PlanKey(w.plans[i]) != p.id {
      var q := w.plans[i];
      assert q in w.plans && PlanLinked(u, q);
      assert q in own.plans <==> q.revisionId == m.r.id;
    }
  }

  lemma NewPlan(words: Candidate -> Words, m: Material, own: Ledger, p: Plan)
    requires m.Valid() && Shape(words, m, Note(own, CurriculumPlanned(p)))
    ensures p.revisionId == m.r.id && exists e :: PlanFrom(e, p) && e.revisionId == m.r.id
    ensures forall q | q in own.plans :: q.id != p.id
  {
    hide Judge, BroadPlan, Practised, PracticeCases, RunsOf, BootstrapDataset, Freezes, DistinctRuns, RunOf, PlanFrom;
    var after := Note(own, CurriculumPlanned(p));
    PlansOfShape(words, m, after);
    var k := |own.plans|;
    assert p == after.plans[k];
    var e := after.evaluations[k];
    assert e in after.evaluations && PlanFrom(e, p);
    PlanNames(e, p);
    assert forall q | q in own.plans :: q == after.plans[0];
  }

  lemma PlanNames(e: Evaluation, p: Plan) requires PlanFrom(e, p) ensures p.revisionId == e.revisionId {}

  lemma RunIsFresh(words: Candidate -> Words, m: Material, w: Ledger, x: PracticeRun)
    requires m.Valid() && Shape(words, m, Note(Own(w, m.r.id), PracticeCompleted(x)))
    ensures !HasKey(RunKey, w.runs, x.id)
  {
    hide Judge, BroadPlan, Practised, PracticeCases, RunsOf, BootstrapDataset, Freezes, RunOf, RestsOn;
    var own := Own(w, m.r.id);
    var after := Note(own, PracticeCompleted(x));
    HistoryIsOwn(words, m, after);
    OwnMembers(w, m.r.id);
    assert x in after.runs && x == after.runs[|own.runs|];
    assert RunServes(x, m.r.id);
    forall i | 0 <= i < |w.runs| ensures RunKey(w.runs[i]) != x.id {
      var y := w.runs[i];
      assert y in own.runs <==> RunServes(y, m.r.id);
      if y in own.runs {
        var j :| 0 <= j < |own.runs| && own.runs[j] == y;
        assert after.runs[j] == y;
      }
    }
  }

  lemma ArtifactIsFresh(words: Candidate -> Words, m: Material, w: Ledger, a: Artifact)
    requires m.Valid() && Own(w, m.r.id).artifacts == []
    requires Shape(words, m, Note(Own(w, m.r.id), ArtifactCreated(a)))
    ensures !HasKey(ArtifactKey, w.artifacts, a.id)
  {
    hide Shape;
    var after := Note(Own(w, m.r.id), ArtifactCreated(a));
    HistoryIsOwn(words, m, after);
    OwnMembers(w, m.r.id);
    assert a in after.artifacts && RestsOn(a, m.r.id);
    forall i | 0 <= i < |w.artifacts| ensures ArtifactKey(w.artifacts[i]) != a.id {
      var b := w.artifacts[i];
      assert b !in Own(w, m.r.id).artifacts && b in w.artifacts;
      assert !RestsOn(b, m.r.id);
      assert b.id == a.id ==> (RestsOn(b, m.r.id) <==> RestsOn(a, m.r.id));
    }
  }

  /** Indexing the log after a legal post appends the record. */
  lemma NextIsFresh(u: Inputs, env: Env, m: Material, w: Ledger, ev: Event)
    requires m.Valid() && m.r in u.revisions && Linked(u, w)
    requires Shape(env.words, m, Own(w, m.r.id)) && Next(env, m, Own(w, m.r.id)) == Some(ev)
    ensures Index(w, ev) == Note(w, ev)
  {
    hide Next, Shape, Own, Linked;
    NextKeepsShape(env, m, Own(w, m.r.id));
    NextKind(env, m, Own(w, m.r.id));
    match ev
    case Evaluated(e) =>
      EvaluationIsFresh(u, env.words, m, w, e);
      PutFresh(EvaluationKey, w.evaluations, e);
    case CurriculumPlanned(p) =>
      PlanIsFresh(u, env.words, m, w, p);
      PutFresh(PlanKey, w.plans, p);
    case PracticeCompleted(x) =>
      RunIsFresh(env.words, m, w, x);
      PutFresh(RunKey, w.runs, x);
    case ArtifactCreated(a) =>
      ArtifactIsFresh(env.words, m, w, a);
      PutFresh(ArtifactKey, w.artifacts, a);
    case _ =>
  }

  lemma HistoryShape(u: Inputs, words: Candidate -> Words, w: Ledger, r: Revision)
    requires Inv(u, words, w) && r in u.revisions && HasMaterial(u, r)
    ensures Shape(words, MaterialOf(u, r), Own(w, r.id))
  {
    EmptyShape(words, MaterialOf(u, r));
  }

  /** Every legal post keeps the invariant, and reloading the log sees exactly what was noted. */
  lemma StepKeepsInv(u: Inputs, env: Env, w: Ledger, ev: Event)
    requires Inv(u, env.words, w) && LegalStep(u, env, w, ev)
    ensures Inv(u, env.words, Note(w, ev)) && Index(w, ev) == Note(w, ev)
  {
    hide Next, Shape, HasMaterial, Linked, Own;
    if !ev.HandoffPosted? {
      var r :| r in u.revisions && HasMaterial(u, r) && Next(env, MaterialOf(u, r), Own(w, r.id)) == Some(ev);
      var m := MaterialOf(u, r);
      HistoryShape(u, env.words, w, r);
      NextKeepsShape(env, m, Own(w, r.id));
      NextExtends(env, m, Own(w, r.id));
      NextIsLinked(u, env, m, w, ev);
      NextIsFresh(u, env, m, w, ev);
      forall q | q in u.revisions ensures HistoryOk(u, env.words, q, Own(Note(w, ev), q.id)) {
        OwnAfter(w, ev, q.id);
        assert Known(RevisionKey, u.revisions, q) && Known(RevisionKey, u.revisions, r);
        assert q.id == r.id ==> q == r;
      }
    }
  }

  lemma {:induction false} LegalKeepsInv(u: Inputs, env: Env, w: Ledger, posts: seq<Event>)
    requires Inv(u, env.words, w) && Legal(u, env, w, posts)
    ensures Inv(u, env.words, NoteAll(w, posts))
    decreases |posts|
  {
    hide Inv, LegalStep;
    if posts != [] {
      StepKeepsInv(u, env, w, posts[0]);
      LegalKeepsInv(u, env, Note(w, posts[0]), posts[1..]);
    }
  }

  /** The records among these posts all belong to one revision. */
  predicate AllExtend(posts: seq<Event>, rid: Id) {
    forall ev | ev in posts && !ev.HandoffPosted? :: Extends(ev, rid)
  }

  ghost predicate OnlyExtend(posts: seq<Event>, rid: Id) {
    AllExtend(posts, rid) && forall ev, q | ev in posts && Extends(ev, q) :: q == rid
  }

  /** What follows the protocol in one history extends no other history. */
  lemma {:induction false} FollowsExtends(env: Env, m: Material, own: Ledger, posts: seq<Event>)
    requires m.Valid() && Shape(env.words, m, own) && Follows(env, m, own, posts)
    ensures OnlyExtend(posts, m.r.id)
    decreases |posts|
  {
    hide Next, Shape, Extends;
    if posts != [] {
      var ev := posts[0];
      assert posts == [ev] + posts[1..];
      if ev.HandoffPosted? {
        HandoffExtends(ev);
      } else {
        NextExtends(env, m, own);
        NextKeepsShape(env, m, own);
      }
      FollowsExtends(env, m, Note(own, ev), posts[1..]);
    }
  }

  lemma HandoffExtends(ev: Event)
    requires ev.HandoffPosted?
    ensures forall rid :: !Extends(ev, rid)
  {
  }

  /** Following the protocol in one history is legal in the log. */
  lemma {:induction false} FollowsIsLegal(u: Inputs, env: Env, w: Ledger, r: Revision, posts: seq<Event>)
    requires Inv(u, env.words, w) && r in u.revisions && HasMaterial(u, r)
    requires Follows(env, MaterialOf(u, r), Own(w, r.id), posts)
    ensures Legal(u, env, w, posts)
    decreases |posts|
  {
    hide Next, Shape, HasMaterial, Inv, Own, Extends;
    if posts != [] {
      HistoryShape(u, env.words, w, r);
      TakesStep(u, env, w, r, posts[0]);
      StepKeepsInv(u, env, w, posts[0]);
      FollowsIsLegal(u, env, Note(w, posts[0]), r, posts[1..]);
    }
  }

  lemma TakesStep(u: Inputs, env: Env, w: Ledger, r: Revision, ev: Event)
    requires r in u.revisions && HasMaterial(u, r) && Shape(env.words, MaterialOf(u, r), Own(w, r.id))
    requires ev.HandoffPosted? || Next(env, MaterialOf(u, r), Own(w, r.id)) == Some(ev)
    ensures LegalStep(u, env, w, ev)
    ensures Own(Note(w, ev), r.id) == Note(Own(w, r.id), ev)
  {
    hide Next, Shape, HasMaterial, Own;
    if ev.HandoffPosted? { HandoffExtends(ev); } else { NextExtends(env, MaterialOf(u, r), Own(w, r.id)); }
    OwnAfter(w, ev, r.id);
  }

  lemma {:induction false} OthersUntouched(w: Ledger, posts: seq<Event>, rid: Id, other: Id)
    requires OnlyExtend(posts, rid) && other != rid
    ensures Own(NoteAll(w, posts), other) == Own(w, other)
    decreases |posts|
  {
    hide Own, Extends;
    if posts != [] {
      assert posts == [posts[0]] + posts[1..];
      OwnAfter(w, posts[0], other);
      OthersUntouched(Note(w, posts[0]), posts[1..], rid, other);
    }
  }

  lemma {:induction false} FrozeCounts(w: Ledger, posts: seq<Event>, rid: Id)
    requires AllExtend(posts, rid)
    ensures |Own(NoteAll(w, posts), rid).artifacts| >= |Own(w, rid).artifacts|
    ensures |Own(NoteAll(w, posts), rid).artifacts| > |Own(w, rid).artifacts| <==> Froze(posts)
    decreases |posts|
  {
    hide Own, Extends;
    if posts != [] {
      assert posts == [posts[0]] + posts[1..];
      OwnAfter(w, posts[0], rid);
      if posts[0].HandoffPosted? { HandoffExtends(posts[0]); }
      FrozeCounts(Note(w, posts[0]), posts[1..], rid);
    }
  }

  /** The revisions a pass treats as done include every one that has its own artifact. */
  predicate CoversFrozen(i: Inputs, w: Ledger, done: set<Id>) {
    forall r | r in i.revisions && r.operation != NoChange && Own(w, r.id).artifacts != [] :: r.id in done
  }

  lemma KnownIsIn(u: Inputs, i: Inputs, r: Revision)
    requires Within(i, u) && r in i.revisions
    ensures Known(RevisionKey, u.revisions, r) && r in u.revisions
  {
  }

  lemma FrozenIsDone(u: Inputs, words: Candidate -> Words, i: Inputs, w: Ledger)
    requires Inv(u, words, w) && Within(i, u) && (forall r | r in i.revisions :: Known(RevisionKey, i.revisions, r))
    ensures CoversFrozen(i, w, ArtifactRevisions(i.revisions, w))
  {
    hide Own, Shape, Linked, HasMaterial, Position;
    forall r | r in i.revisions && r.operation != NoChange && Own(w, r.id).artifacts != []
      ensures r.id in ArtifactRevisions(i.revisions, w)
    {
      KnownIsIn(u, i, r);
      assert HistoryOk(u, words, r, Own(w, r.id));
      var a, e := FrozenPair(words, MaterialOf(u, r), Own(w, r.id));
      OwnMembersAt(w, r.id, a, e);
      assert Known(RevisionKey, i.revisions, r);
      assert CandidateIdsOf(i.revisions, e.revisionId) == r.candidateIds;
    }
  }

  /** A frozen history has an artifact that holds its candidates, and an evaluation from the same bundle. */
  lemma FrozenPair(words: Candidate -> Words, m: Material, own: Ledger) returns (a: Artifact, e: Evaluation)
    requires m.Valid() && Shape(words, m, own) && own.artifacts != []
    ensures a in own.artifacts && e in own.evaluations
    ensures e.revisionId == m.r.id && e.bundle == a.bundle && Holds(a, m.r.candidateIds)
  {
    hide Judge, BroadPlan, Practised, PracticeCases, RunsOf, BootstrapDataset, DistinctRuns, RunOf, ValidArtifact;
    PlansOfShape(words, m, own);
    a, e := own.artifacts[0], own.evaluations[1];
    assert e in own.evaluations;
    FrozenHolds(m, e, a);
  }

  lemma OwnMembersAt(w: Ledger, rid: Id, a: Artifact, e: Evaluation)
    requires a in Own(w, rid).artifacts && e in Own(w, rid).evaluations
    ensures a in w.artifacts && e in w.evaluations
  {
    OwnMembers(w, rid);
  }

  lemma FrozenHolds(m: Material, e: Evaluation, a: Artifact)
    requires m.Valid() && Freezes(m, e, a)
    ensures Holds(a, m.r.candidateIds)
  {
    var parent := m.r.parent.experiences;
    forall id | id in m.r.candidateIds ensures id in a.experienceIds {
      var k :| 0 <= k < |m.r.candidateIds| && m.r.candidateIds[k] == id;
      assert a.experienceIds[|parent| + k] == a.experiences[|parent| + k].id == AllReconciled(m.cs)[k].id == m.cs[k].id;
    }
  }

  /** A turn that is not skipped advances the revision's own records, or raises before it posts. */
  lemma TurnFollows(u: Inputs, env: Env, i: Inputs, w: Ledger, done: set<Id>, r: Revision)
    requires Inv(u, env.words, w) && Within(i, u) && CoversFrozen(i, w, done)
    requires r in i.revisions && ValidRevision(r) && r in u.revisions && !Skips(i, done, r)
    ensures var s := ReviseOne(env, i, w, done, r);
      if !HasMaterial(i, r) then s == Step([], false)
      else
        && HasMaterial(u, r) && MaterialOf(u, r) == MaterialOf(i, r)
        && var m, own := MaterialOf(u, r), Own(w, r.id);
           && Shape(env.words, m, own) && own.artifacts == []
           && s == Advance(env, m.r, m.cs, m.sources, own)
           && Follows(env, m, own, s.posts)
  {
    hide Next, Shape, Linked, Own, Advance, FindCandidates, Position, Follows;
    if HasMaterial(i, r) {
      MaterialWithin(i, u, r);
      var m := MaterialOf(u, r);
      HistoryShape(u, env.words, w, r);
      AdvanceLocal(u, env, m, w);
      AdvanceFollows(env, m, Own(w, r.id));
    }
  }

  lemma SkippedPostsNothing(env: Env, i: Inputs, w: Ledger, done: set<Id>, r: Revision)
    ensures Skips(i, done, r) ==> ReviseOne(env, i, w, done, r) == NOTHING
    ensures !Skips(i, done, r) && !HasMaterial(i, r) && ValidRevision(r) ==> ReviseOne(env, i, w, done, r) == Step([], false)
  {
  }

  /** One revision's turn within a pass. */
  lemma TurnIsLegal(u: Inputs, env: Env, i: Inputs, w: Ledger, done: set<Id>, r: Revision)
    requires Inv(u, env.words, w) && Within(i, u) && CoversFrozen(i, w, done)
    requires r in i.revisions && ValidRevision(r)
    ensures var s := ReviseOne(env, i, w, done, r);
      && Legal(u, env, w, s.posts) && OnlyExtend(s.posts, r.id)
      && CoversFrozen(i, NoteAll(w, s.posts), DoneAfter(done, r, s.posts))
  {
    hide Next, Shape, Linked, Own, Advance, Extends, Inv, Within, HasMaterial, MaterialOf, ReviseOne, Follows, Legal;
    assert r in u.revisions by { KnownIsIn(u, i, r); }
    var s := ReviseOne(env, i, w, done, r);
    if s.posts == [] {
      LegalNothing(u, env, w);
      NoteNone(w);
    } else {
      SkippedPostsNothing(env, i, w, done, r);
      TurnFollows(u, env, i, w, done, r);
      FollowsIsLegal(u, env, w, r, s.posts);
      FollowsExtends(env, MaterialOf(u, r), Own(w, r.id), s.posts);
      FrozeCounts(w, s.posts, r.id);
      forall q | q in i.revisions && q.operation != NoChange && Own(NoteAll(w, s.posts), q.id).artifacts != []
        ensures q.id in DoneAfter(done, r, s.posts)
      {
        if q.id != r.id { OthersUntouched(w, s.posts, r.id, q.id); }
      }
    }
  }

  lemma {:induction false} TurnsAreLegal(u: Inputs, env: Env, i: Inputs, w: Ledger, done: set<Id>, rs: seq<Revision>)
    requires Inv(u, env.words, w) && Within(i, u) && CoversFrozen(i, w, done)
    requires forall r | r in rs :: r in i.revisions && ValidRevision(r)
    ensures Legal(u, env, w, ReviseAll(env, i, w, done, rs).posts)
    decreases |rs|
  {
    hide Inv, Within, CoversFrozen, ReviseOne, Legal, ValidRevision, DoneAfter;
    if rs == [] {
      LegalNothing(u, env, w);
    } else {
      var s := ReviseOne(env, i, w, done, rs[0]);
      assert rs[0] in rs;
      TurnIsLegal(u, env, i, w, done, rs[0]);
      LegalKeepsInv(u, env, w, s.posts);
      if s.ok {
        assert forall r | r in rs[1..] :: r in rs;
        TurnsAreLegal(u, env, i, NoteAll(w, s.posts), DoneAfter(done, rs[0], s.posts), rs[1..]);
        LegalConcat(u, env, w, s.posts,
          ReviseAll(env, i, NoteAll(w, s.posts), DoneAfter(done, rs[0], s.posts), rs[1..]).posts);
      }
    }
  }

  lemma LegalNothing(u: Inputs, env: Env, w: Ledger) ensures Legal(u, env, w, []) {}
}
