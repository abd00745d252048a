/**
 Runs of the worker: any schedule of arriving inputs and worker passes, each pass with its
 own practice answers and active memory, and killed after any number of posts.

 Inputs that arrive while a pass is under way are ordered after it: a pass has read its
 inputs before it posts anything.
 */
module Guarantees {
  import opened Sequences
  import opened Records
  import opened Evaluator
  import opened Curriculum
  import opened Artifacts
  import opened Worker
  import opened Lifecycle
  import opened Refinement

  datatype Act = Arrive(ev: Event) | Work(env: Env, kill: nat)

  function Killed(posts: seq<Event>, k: nat): seq<Event> { if k < |posts| then posts[..k] else posts }

  function After(log: seq<Event>, act: Act): seq<Event> {
    match act
    case Arrive(ev) => log + [ev]
    case Work(env, kill) => log + Killed(RunPass(env, log).posts, kill)
  }

  function Play(log: seq<Event>, acts: seq<Act>): seq<Event>
    decreases |acts|
  {
    if acts == [] then log else Play(After(log, acts[0]), acts[1..])
  }

  /** Inputs come from one world, in which an id has one content. */
  predicate FromWorld(u: Inputs, ev: Event) {
    match ev
    case HandoffReady(h) => Known(HandoffKey, u.handoffs, h)
    case CandidateDistilled(c) => Known(CandidateKey, u.candidates, c)
    case RevisionReconciled(r) => Known(RevisionKey, u.revisions, r)
    case _ => false
  }

  ghost predicate Permitted(u: Inputs, words: Candidate -> Words, act: Act) {
    match act
    case Arrive(ev) => FromWorld(u, ev)
    case Work(env, _) => env.words == words
  }

  /** What is true of every log a run can reach. */
  predicate Sound(u: Inputs, words: Candidate -> Words, log: seq<Event>) {
    && Inv(u, words, LedgerOf(log))
    && Within(InputsOf(log), u)
    && OneEach(RevisionKey, InputsOf(log).revisions)
  }

  // --- Reloading a log ---------------------------------------------------------------------

  lemma {:induction false} ReloadSeesPosts(u: Inputs, env: Env, log: seq<Event>, posts: seq<Event>)
    requires Inv(u, env.words, LedgerOf(log)) && Legal(u, env, LedgerOf(log), posts)
    ensures LedgerOf(log + posts) == NoteAll(LedgerOf(log), posts)
    ensures InputsOf(log + posts) == InputsOf(log)
    decreases |posts|
  {
    hide Inv, Next, Index, IndexInput;
    if posts == [] {
      assert log + posts == log;
    } else {
      var ev := posts[0];
      StepKeepsInv(u, env, LedgerOf(log), ev);
      assert (log + [ev])[..|log|] == log;
      LegalIsNoInput(u, env, LedgerOf(log), ev);
      ReloadSeesPosts(u, env, log + [ev], posts[1..]);
      assert log + posts == (log + [ev]) + posts[1..];
    }
  }

  lemma LegalIsNoInput(u: Inputs, env: Env, w: Ledger, ev: Event)
    requires Inv(u, env.words, w) && LegalStep(u, env, w, ev)
    ensures forall i :: IndexInput(i, ev) == i
  {
    hide Next, Shape, Linked, HasMaterial, Own;
    if !ev.HandoffPosted? {
      var r :| r in u.revisions && HasMaterial(u, r) && Next(env, MaterialOf(u, r), Own(w, r.id)) == Some(ev);
      HistoryShape(u, env.words, w, r);
      NextKind(env, MaterialOf(u, r), Own(w, r.id));
    }
  }

  lemma PassIsLegal(u: Inputs, env: Env, log: seq<Event>)
    requires Sound(u, env.words, log)
    ensures Legal(u, env, LedgerOf(log), RunPass(env, log).posts)
  {
    hide Inv, Within, Legal, CoversFrozen, ReviseAll, ArtifactRevisions;
    var i, w := InputsOf(log), LedgerOf(log);
    OneEachIsKnown(RevisionKey, i.revisions);
    if Loads(i) {
      FrozenIsDone(u, env.words, i, w);
      TurnsAreLegal(u, env, i, w, ArtifactRevisions(i.revisions, w), i.revisions);
    } else {
      LegalNothing(u, env, w);
    }
  }

  /** A dictionary keeps one record per key. */
  lemma PutKeepsKeys<K, V>(key: V -> K, s: seq<V>, v: V)
    requires OneEach(key, s)
    ensures OneEach(key, Put(key, s, v))
    ensures forall x | x in Put(key, s, v) :: x in s || x == v
  {
  }

  lemma OneEachIsKnown<K, V>(key: V -> K, s: seq<V>)
    requires OneEach(key, s)
    ensures forall x | x in s :: Known(key, s, x)
  {
  }

  lemma {:induction false} InputsOneEach(log: seq<Event>)
    ensures var i := InputsOf(log);
      OneEach(HandoffKey, i.handoffs) && OneEach(CandidateKey, i.candidates) && OneEach(RevisionKey, i.revisions)
  {
    if log != [] {
      var n := |log| - 1;
      InputsOneEach(log[..n]);
      var i := InputsOf(log[..n]);
      match log[n]
      case HandoffReady(h) => PutKeepsKeys(HandoffKey, i.handoffs, h);
      case CandidateDistilled(c) => PutKeepsKeys(CandidateKey, i.candidates, c);
      case RevisionReconciled(r) => PutKeepsKeys(RevisionKey, i.revisions, r);
      case _ =>
    }
  }

  /** An arriving input keeps a log sound and changes no record. */
  lemma ArrivalKeepsSound(u: Inputs, words: Candidate -> Words, log: seq<Event>, ev: Event)
    requires Sound(u, words, log) && FromWorld(u, ev)
    ensures Sound(u, words, log + [ev])
  {
    hide Inv;
    assert (log + [ev])[..|log|] == log;
    var i := InputsOf(log);
    InputsOneEach(log + [ev]);
    match ev
    case HandoffReady(h) => PutMembers(HandoffKey, i.handoffs, h);
    case CandidateDistilled(c) => PutMembers(CandidateKey, i.candidates, c);
    case RevisionReconciled(r) => PutMembers(RevisionKey, i.revisions, r);
    case _ =>
  }

  lemma PutMembers<K, V>(key: V -> K, s: seq<V>, v: V)
    ensures forall x | x in Put(key, s, v) :: x in s || x == v
  {
  }

  lemma KilledIsLegal(u: Inputs, env: Env, log: seq<Event>, kill: nat)
    requires Sound(u, env.words, log)
    ensures Legal(u, env, LedgerOf(log), Killed(RunPass(env, log).posts, kill))
  {
    hide Inv, Within, Legal, RunPass;
    PassIsLegal(u, env, log);
    var posts := RunPass(env, log).posts;
    if kill < |posts| { LegalPrefix(u, env, LedgerOf(log), posts, kill); }
  }

  lemma ActKeepsSound(u: Inputs, words: Candidate -> Words, log: seq<Event>, act: Act)
    requires Sound(u, words, log) && Permitted(u, words, act)
    ensures Sound(u, words, After(log, act))
  {
    hide Inv, Within, Legal, RunPass;
    match act
    case Arrive(ev) => ArrivalKeepsSound(u, words, log, ev);
    case Work(env, kill) =>
      var posts := Killed(RunPass(env, log).posts, kill);
      KilledIsLegal(u, env, log, kill);
      ReloadSeesPosts(u, env, log, posts);
      LegalKeepsInv(u, env, LedgerOf(log), posts);
  }

  /** Every log that any run reaches from an empty log is sound. */
  lemma {:induction false} RunsAreSound(u: Inputs, words: Candidate -> Words, log: seq<Event>, acts: seq<Act>)
    requires Sound(u, words, log) && forall act | act in acts :: Permitted(u, words, act)
    ensures Sound(u, words, Play(log, acts))
    decreases |acts|
  {
    hide Sound, Permitted;
    if acts != [] {
      assert acts == [acts[0]] + acts[1..];
      ActKeepsSound(u, words, log, acts[0]);
      RunsAreSound(u, words, After(log, acts[0]), acts[1..]);
    }
  }

  lemma EmptyLogIsSound(u: Inputs, words: Candidate -> Words)
    requires Consistent(u)
    ensures Sound(u, words, [])
  {
  }

  // --- What a pass reports ------------------------------------------------------------------

  lemma {:induction false} ChangesFrom(ev: Event, rest: seq<Event>)
    ensures Changes([ev] + rest) == Changes(rest) + if ev.HandoffPosted? then 0 else 1
    decreases |rest|
  {
    var all := [ev] + rest;
    if rest == [] {
      assert all[..0] == [] && all == [ev];
    } else {
      var n := |rest| - 1;
      ChangesFrom(ev, rest[..n]);
      assert all[..|all| - 1] == [ev] + rest[..n];
    }
  }

  predicate Noted(ev: Event) { ev.Evaluated? || ev.CurriculumPlanned? || ev.PracticeCompleted? || ev.ArtifactCreated? }

  lemma NoteAddsOne(w: Ledger, ev: Event)
    requires Noted(ev) || ev.HandoffPosted?
    ensures Size(Note(w, ev)) == Size(w) + if ev.HandoffPosted? then 0 else 1
  {
  }

  lemma LegalAddsOne(u: Inputs, env: Env, w: Ledger, ev: Event)
    requires Inv(u, env.words, w) && LegalStep(u, env, w, ev)
    ensures Size(Note(w, ev)) == Size(w) + if ev.HandoffPosted? then 0 else 1
  {
    hide Next, Shape, Linked, HasMaterial, Own, Size, Note;
    if !ev.HandoffPosted? {
      var r :| r in u.revisions && HasMaterial(u, r) && Next(env, MaterialOf(u, r), Own(w, r.id)) == Some(ev);
      HistoryShape(u, env.words, w, r);
      NextKind(env, MaterialOf(u, r), Own(w, r.id));
    }
    NoteAddsOne(w, ev);
  }

  lemma {:induction false} LegalAddsChanges(u: Inputs, env: Env, w: Ledger, posts: seq<Event>)
    requires Inv(u, env.words, w) && Legal(u, env, w, posts)
    ensures Size(NoteAll(w, posts)) == Size(w) + Changes(posts)
    decreases |posts|
  {
    hide Inv, Next, Index, LegalStep, Size, Note;
    if posts != [] {
      StepKeepsInv(u, env, w, posts[0]);
      LegalAddsOne(u, env, w, posts[0]);
      LegalAddsChanges(u, env, Note(w, posts[0]), posts[1..]);
      ChangesFrom(posts[0], posts[1..]);
      assert posts == [posts[0]] + posts[1..];
    }
  }

  /** What a pass reports is by how many records the reloaded log has grown. */
  lemma ChangesAreNewRecords(u: Inputs, env: Env, log: seq<Event>)
    requires Sound(u, env.words, log)
    ensures var posts := RunPass(env, log).posts;
      Size(LedgerOf(log + posts)) == Size(LedgerOf(log)) + Changes(posts)
  {
    hide Inv, Within, Legal, RunPass, Size, Changes;
    PassIsLegal(u, env, log);
    var posts := RunPass(env, log).posts;
    ReloadSeesPosts(u, env, log, posts);
    LegalAddsChanges(u, env, LedgerOf(log), posts);
  }

  // --- At most eight records ----------------------------------------------------------------

  lemma {:induction false} DistinctRunsBound(xs: seq<PracticeRun>, ids: set<Id>)
    requires DistinctRuns(xs) && forall x | x in xs :: x.id in ids
    ensures |xs| <= |ids|
  {
    if xs != [] {
      var n := |xs| - 1;
      assert xs == xs[..n] + [xs[n]];
      DistinctRunsBound(xs[..n], ids - {xs[n].id});
    }
  }

  lemma RunIdsOf(e: Evaluation, p: Plan, x: PracticeRun)
    requires PlanFrom(e, p) && RunOf(p, x)
    ensures x.id in {RunId(OfPlan(p), p.tasks[0].id), RunId(OfPlan(p), p.tasks[1].id)}
  {
  }

  lemma RunsBound(words: Candidate -> Words, m: Material, own: Ledger)
    requires m.Valid() && Shape(words, m, own)
    ensures |own.runs| <= 2 * |own.plans|
  {
    hide Judge, BroadPlan, Practised, PracticeCases, RunsOf, BootstrapDataset, Freezes, PlanFrom, RunOf;
    PlansOfShape(words, m, own);
    var es, ps := own.evaluations, own.plans;
    if |ps| == 0 {
      DistinctRunsBound(own.runs, {});
    } else {
      assert |ps[0].tasks| == 2 by { TwoTasks(es[0], ps[0]); }
      var first := {RunId(OfPlan(ps[0]), ps[0].tasks[0].id), RunId(OfPlan(ps[0]), ps[0].tasks[1].id)};
      if |ps| == 1 {
        forall x | x in own.runs ensures x.id in first { RunIdsOf(es[0], ps[0], x); }
        DistinctRunsBound(own.runs, first);
      } else {
        TwoTasks(es[1], ps[1]);
        var second := {RunId(OfPlan(ps[1]), ps[1].tasks[0].id), RunId(OfPlan(ps[1]), ps[1].tasks[1].id)};
        forall x | x in own.runs ensures x.id in first + second {
          var p :| p in ps && RunOf(p, x);
          if p == ps[0] { RunIdsOf(es[0], p, x); } else { RunIdsOf(es[1], p, x); }
        }
        DistinctRunsBound(own.runs, first + second);
      }
    }
  }

  lemma TwoTasks(e: Evaluation, p: Plan) requires PlanFrom(e, p) ensures |p.tasks| == 2 {}

  lemma HistoryBound(words: Candidate -> Words, m: Material, own: Ledger)
    requires m.Valid() && Shape(words, m, own)
    ensures Size(own) <= 8
  {
    hide Judge, BroadPlan, Practised, PracticeCases, RunsOf, BootstrapDataset, Freezes, RunOf, DistinctRuns;
    RunsBound(words, m, own);
  }

  lemma EightAtMost(u: Inputs, env: Env, w: Ledger, r: Revision)
    requires Inv(u, env.words, w) && r in u.revisions
    ensures var own := Own(w, r.id);
      && Size(own) <= 8
      && (Size(own) > 0 ==> HasMaterial(u, r))
      && (Size(own) == 8 ==> Next(env, MaterialOf(u, r), own).None?)
  {
    hide Next, Shape, Linked, HasMaterial, Own, MaterialOf;
    var own := Own(w, r.id);
    if HasMaterial(u, r) {
      var m := MaterialOf(u, r);
      HistoryShape(u, env.words, w, r);
      HistoryBound(env.words, m, own);
      if Next(env, m, own).Some? {
        NextKeepsShape(env, m, own);
        NextKind(env, m, own);
        HistoryBound(env.words, m, Note(own, Next(env, m, own).value));
      }
    } else {
      assert HistoryOk(u, env.words, r, own);
    }
  }

  /** Whatever runs, crashes and answers went before, a revision has at most eight records, and none after the eighth. */
  lemma AtMostEightRecords(u: Inputs, words: Candidate -> Words, acts: seq<Act>, r: Revision, env: Env)
    requires Consistent(u) && r in u.revisions && env.words == words
    requires forall act | act in acts :: Permitted(u, words, act)
    ensures var own := Own(LedgerOf(Play([], acts)), r.id);
      && Size(own) <= 8
      && (Size(own) > 0 ==> HasMaterial(u, r))
      && (Size(own) == 8 ==> Next(env, MaterialOf(u, r), own).None?)
  {
    hide Next, Inv, HasMaterial, Own, Play, LedgerOf, InputsOf, Within, Permitted;
    EmptyLogIsSound(u, words);
    RunsAreSound(u, words, [], acts);
    EightAtMost(u, env, LedgerOf(Play([], acts)), r);
  }

  // --- Nothing unpractised is frozen --------------------------------------------------------

  /** What stands behind an artifact: a revision's fully practised plan and the verdict it earned. */
  ghost predicate Earned(u: Inputs, w: Ledger, a: Artifact, r: Revision, p: Plan, e: Evaluation) {
    && HasMaterial(u, r)
    && p in w.plans && p.revisionId == r.id && Practised(p, w.runs)
    && (forall x | x in w.runs && x.curriculumId == p.id :: x.verdict == Some(Pass))
    && (forall c | c in MaterialOf(u, r).cs :: c.causal == ObservedAssociation)
    && e in w.evaluations && e.revisionId == r.id && e.decision == Accepted
    && e.dataset == OfDataset(PracticeCases(RunsOf(w.runs, p.id)))
    && Freezes(MaterialOf(u, r), e, a)
  }

  lemma RunScope(e: Evaluation, p: Plan, x: PracticeRun)
    requires PlanFrom(e, p) && RunOf(p, x)
    ensures x.tenant == e.tenant && x.domain == e.domain
  {
  }

  lemma RunsInScope(words: Candidate -> Words, m: Material, own: Ledger, x: PracticeRun)
    requires m.Valid() && Shape(words, m, own) && x in own.runs
    ensures x.tenant == m.r.tenant && x.domain == m.r.domain
  {
    hide Judge, BroadPlan, Practised, PracticeCases, RunsOf, BootstrapDataset, Freezes, DistinctRuns, RunOf, PlanFrom;
    PlansOfShape(words, m, own);
    var p :| p in own.plans && RunOf(p, x);
    var i :| 0 <= i < |own.plans| && own.plans[i] == p;
    var e := own.evaluations[i];
    assert e in own.evaluations && PlanFrom(e, p);
    RunScope(e, p, x);
  }

  lemma MaterialIsNamed(m: Material)
    requires m.Valid()
    ensures forall c | c in m.cs :: c.id in m.r.candidateIds
  {
    forall c | c in m.cs ensures c.id in m.r.candidateIds {
      var k :| 0 <= k < |m.cs| && m.cs[k] == c;
      assert Ids(m.cs)[k] == c.id;
    }
  }

  /** A verdict of acceptance on practice means that every run passed and only associations are claimed. */
  lemma AcceptedPractice(words: Candidate -> Words, m: Material, own: Ledger)
    requires m.Valid() && Shape(words, m, own) && own.plans != [] && RunsOf(own.runs, own.plans[0].id) != []
    requires Judge(m, PracticeCasesOf(own)).Ok? && Judge(m, PracticeCasesOf(own)).value.decision == Accepted
    ensures forall x | x in RunsOf(own.runs, own.plans[0].id) :: x.verdict == Some(Pass)
    ensures forall c | c in m.cs :: c.causal == ObservedAssociation
  {
    hide Evaluate, Shape, PracticeCases, RunsOf;
    var xs := RunsOf(own.runs, own.plans[0].id);
    RunsOfMembers(own.runs, own.plans[0].id);
    forall x | x in xs ensures x.tenant == m.r.tenant && x.domain == m.r.domain {
      RunsInScope(words, m, own, x);
    }
    PracticeVerdict(m.r, m.cs, xs, m.sources);
    MaterialIsNamed(m);
  }

  /** A frozen history: its first plan is practised without a failure, on claims of mere association. */
  lemma HistoryEarned(words: Candidate -> Words, m: Material, own: Ledger)
    requires m.Valid() && Shape(words, m, own) && own.artifacts != []
    ensures |own.plans| >= 1 && |own.evaluations| == 2
    ensures PlanFrom(own.evaluations[0], own.plans[0]) && Practised(own.plans[0], own.runs)
    ensures forall x | x in RunsOf(own.runs, own.plans[0].id) :: x.verdict == Some(Pass)
    ensures forall c | c in m.cs :: c.causal == ObservedAssociation
    ensures own.evaluations[1].decision == Accepted && own.evaluations[1].dataset == OfDataset(PracticeCasesOf(own))
    ensures forall a | a in own.artifacts :: Freezes(m, own.evaluations[1], a)
  {
    hide Judge, BroadPlan, Practised, BootstrapDataset, Freezes, DistinctRuns, RunOf, PracticeCases, RunsOf, PlanFrom;
    PlansOfShape(words, m, own);
    AcceptedPractice(words, m, own);
  }

  /** Freeze safety: in every reachable log, each artifact was earned by independent practice. */
  lemma FrozenMemoryWasPractised(u: Inputs, words: Candidate -> Words, acts: seq<Act>, a: Artifact)
    requires Consistent(u) && forall act | act in acts :: Permitted(u, words, act)
    requires a in LedgerOf(Play([], acts)).artifacts
    ensures exists r, p, e :: r in u.revisions && Earned(u, LedgerOf(Play([], acts)), a, r, p, e)
  {
    hide Earned, Play, LedgerOf, Shape, Own, EvaluationLinked, PlanLinked, RunLinked, Permitted;
    EmptyLogIsSound(u, words);
    RunsAreSound(u, words, [], acts);
    var w := LedgerOf(Play([], acts));
    assert ArtifactLinked(u, a);
    var r :| r in u.revisions && RestsOn(a, r.id);
    ArtifactEarned(u, words, w, a, r);
  }

  lemma ArtifactEarned(u: Inputs, words: Candidate -> Words, w: Ledger, a: Artifact, r: Revision)
    requires Inv(u, words, w) && r in u.revisions && a in w.artifacts && RestsOn(a, r.id)
    ensures exists p, e :: Earned(u, w, a, r, p, e)
  {
    hide Shape, Practised, RunsOf, PracticeCases, Freezes, Linked, RestsOn, HasMaterial, PlanFrom, RunServes;
    OwnMembers(w, r.id);
    var own := Own(w, r.id);
    assert a in own.artifacts;
    assert HistoryOk(u, words, r, own);
    var m := MaterialOf(u, r);
    HistoryEarned(words, m, own);
    var p, e := own.plans[0], own.evaluations[1];
    assert p in own.plans && e in own.evaluations && own.evaluations[0] in own.evaluations;
    PlanRunsAreOwn(u, w, own.evaluations[0], p, r.id);
    RunsOfMembers(w.runs, p.id);
    SamePractised(p, w.runs, own.runs);
    assert Earned(u, w, a, r, p, e);
  }

  lemma PlanRunsAreOwn(u: Inputs, w: Ledger, e: Evaluation, p: Plan, rid: Id)
    requires Linked(u, w) && PlanFrom(e, p) && e.revisionId == rid
    ensures RunsOf(RunsFor(w.runs, rid), p.id) == RunsOf(w.runs, p.id)
  {
    RunsLocal(u, w.runs, rid, p.id);
  }

  lemma SamePractised(p: Plan, xs: seq<PracticeRun>, ys: seq<PracticeRun>)
    requires RunsOf(xs, p.id) == RunsOf(ys, p.id)
    ensures Practised(p, xs) <==> Practised(p, ys)
  {
  }

  // --- Only the active memory is extended ---------------------------------------------------

  /** The artifact that this revision's guarded step on the active memory leads to. */
  predicate Extended(env: Env, i: Inputs, r: Revision, a: Artifact) {
    var cs := FindCandidates(i.candidates, r.candidateIds);
    var active := env.active(r);
    && active.snapshot.Hash() == r.parent == active.hash && a.parentHash == r.parent && a.artifactHash == r.proposed
    && r.proposed == active.snapshot.(experiences := a.experiences).Hash()
    && a.experiences == active.snapshot.experiences + AllReconciled(cs) && a.parentArtifact == active.artifactId
    && a.schema == env.schema && a.retrieval == env.retrieval && a.bundle == OfBundle
  }

  lemma {:induction false} PractiseFreezesNothing(env: Env, p: Plan, tasks: seq<Task>, answered: set<Id>)
    ensures !Froze(Practise(env, p, tasks, answered).posts)
  {
    hide Closes;
    if tasks != [] { PractiseFreezesNothing(env, p, tasks[1..], answered); }
  }

  lemma TurnExtendsActive(env: Env, i: Inputs, w: Ledger, done: set<Id>, r: Revision, a: Artifact)
    requires ArtifactCreated(a) in ReviseOne(env, i, w, done, r).posts
    ensures Extended(env, i, r, a)
  {
    hide Evaluate, BroadPlan, Practise, ValidArtifact, Dataset, FindEvaluation, FindPlan, Skips, Updated, ValidSnapshot;
    var cs := FindCandidates(i.candidates, r.candidateIds);
    var sources := Sources(i.handoffs, cs);
    var found := FindEvaluation(w.evaluations, r.id, OfDataset(Dataset(r, w, sources)));
    var judged := Evaluate(r, cs, Dataset(r, w, sources), sources);
    if found.Some? {
      EvaluationExtendsActive(env, i, r, w, found.value, a);
    } else {
      EvaluationExtendsActive(env, i, r, Note(w, Evaluated(judged.value)), judged.value, a);
    }
  }

  lemma EvaluationExtendsActive(env: Env, i: Inputs, r: Revision, w: Ledger, e: Evaluation, a: Artifact)
    requires ArtifactCreated(a) in AfterEvaluation(env, r, FindCandidates(i.candidates, r.candidateIds), w, e).posts
    ensures Extended(env, i, r, a)
  {
    hide BroadPlan, Practise, ValidArtifact, FindPlan, ValidSnapshot, Hashes, Greatest;
    var cs := FindCandidates(i.candidates, r.candidateIds);
    if e.decision == NeedsExperiment {
      var found := FindPlan(w.plans, e.id);
      var p := if found.Some? then found.value else BroadPlan(r, cs, e, env.words).value;
      PractiseFreezesNothing(env, p, p.tasks, Answered(w.runs, p.id));
      assert false;
    }
  }

  lemma {:induction false} TurnsExtendActive(env: Env, i: Inputs, w: Ledger, done: set<Id>, rs: seq<Revision>, a: Artifact)
    requires ArtifactCreated(a) in ReviseAll(env, i, w, done, rs).posts
    ensures exists r :: r in rs && Extended(env, i, r, a)
    decreases |rs|
  {
    hide ReviseOne, Extended;
    var s := ReviseOne(env, i, w, done, rs[0]);
    if ArtifactCreated(a) in s.posts {
      TurnExtendsActive(env, i, w, done, rs[0], a);
      assert rs[0] in rs;
    } else {
      TurnsExtendActive(env, i, NoteAll(w, s.posts), DoneAfter(done, rs[0], s.posts), rs[1..], a);
      var r :| r in rs[1..] && Extended(env, i, r, a);
      assert r in rs;
    }
  }

  /** A revision whose parent is not the active memory is never frozen: an artifact extends the memory active in its pass. */
  lemma OnlyActiveMemoryIsExtended(env: Env, log: seq<Event>, a: Artifact)
    requires ArtifactCreated(a) in RunPass(env, log).posts
    ensures exists r :: r in InputsOf(log).revisions && Extended(env, InputsOf(log), r, a)
  {
    hide ReviseAll, Extended, ArtifactRevisions;
    var i, w := InputsOf(log), LedgerOf(log);
    TurnsExtendActive(env, i, w, ArtifactRevisions(i.revisions, w), i.revisions, a);
  }
}
