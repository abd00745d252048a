/**
 The evolution worker: one pass over an append-only event log.

 `RunPass` says which events a pass posts; `EvolutionWorker.RunOnce` is the worker itself,
 which appends them one by one. A pass that is killed after `k` posts leaves the log
 extended by the first `k` of them.
 */
module Worker {
  import opened Sequences
  import opened Records
  import opened Evaluator
  import opened Curriculum
  import opened Artifacts

  datatype Event =
    | HandoffReady(handoff: Handoff)
    | CandidateDistilled(candidate: Candidate)
    | RevisionReconciled(revision: Revision)
    | Evaluated(evaluation: Evaluation)
    | CurriculumPlanned(plan: Plan)
    | HandoffPosted(practice: Handoff)
    | PracticeCompleted(run: PracticeRun)
    | ArtifactCreated(artifact: Artifact)

  // --- The indexes a pass derives from the log --------------------------------------------

  datatype Ledger = Ledger(
    evaluations: seq<Evaluation>, plans: seq<Plan>, runs: seq<PracticeRun>, artifacts: seq<Artifact>)

  datatype Inputs = Inputs(handoffs: seq<Handoff>, candidates: seq<Candidate>, revisions: seq<Revision>)

  function HandoffKey(h: Handoff): string { h.id }
  function CandidateKey(c: Candidate): Id { c.id }
  function RevisionKey(r: Revision): Id { r.id }
  function EvaluationKey(e: Evaluation): Id { e.id }
  function PlanKey(p: Plan): Id { p.id }
  function RunKey(x: PracticeRun): Id { x.id }
  function ArtifactKey(a: Artifact): Id { a.id }

  function Index(w: Ledger, ev: Event): Ledger {
    match ev
    case Evaluated(e) => w.(evaluations := Put(EvaluationKey, w.evaluations, e))
    case CurriculumPlanned(p) => w.(plans := Put(PlanKey, w.plans, p))
    case PracticeCompleted(x) => w.(runs := Put(RunKey, w.runs, x))
    case ArtifactCreated(a) => w.(artifacts := Put(ArtifactKey, w.artifacts, a))
    case _ => w
  }

  function IndexInput(i: Inputs, ev: Event): Inputs {
    match ev
    case HandoffReady(h) => i.(handoffs := Put(HandoffKey, i.handoffs, h))
    case CandidateDistilled(c) => i.(candidates := Put(CandidateKey, i.candidates, c))
    case RevisionReconciled(r) => i.(revisions := Put(RevisionKey, i.revisions, r))
    case _ => i
  }

  function LedgerOf(log: seq<Event>): Ledger {
    if log == [] then Ledger([], [], [], [])
    else Index(LedgerOf(log[..|log| - 1]), log[|log| - 1])
  }

  function InputsOf(log: seq<Event>): Inputs {
    if log == [] then Inputs([], [], [])
    else IndexInput(InputsOf(log[..|log| - 1]), log[|log| - 1])
  }

  /** What a pass appends to its own lists once an event is posted. */
  function Note(w: Ledger, ev: Event): Ledger {
    match ev
    case Evaluated(e) => w.(evaluations := w.evaluations + [e])
    case CurriculumPlanned(p) => w.(plans := w.plans + [p])
    case PracticeCompleted(x) => w.(runs := w.runs + [x])
    case ArtifactCreated(a) => w.(artifacts := w.artifacts + [a])
    case _ => w
  }

  function NoteAll(w: Ledger, posts: seq<Event>): Ledger
    decreases |posts|
  {
    if posts == [] then w else NoteAll(Note(w, posts[0]), posts[1..])
  }

  // --- Lookups ----------------------------------------------------------------------------

  function EvaluationsOf(es: seq<Evaluation>, rid: Id): seq<Evaluation> {
    if es == [] then []
    else (if es[0].revisionId == rid then [es[0]] else []) + EvaluationsOf(es[1..], rid)
  }

  function RunsOf(xs: seq<PracticeRun>, pid: Id): seq<PracticeRun> {
    if xs == [] then []
    else (if xs[0].curriculumId == pid then [xs[0]] else []) + RunsOf(xs[1..], pid)
  }

  function AcceptedOf(es: seq<Evaluation>, rid: Id): seq<Evaluation> {
    if es == [] then []
    else (if es[0].revisionId == rid && es[0].decision == Accepted then [es[0]] else []) + AcceptedOf(es[1..], rid)
  }

  /** The first evaluation of this revision over this dataset. */
  function FindEvaluation(es: seq<Evaluation>, rid: Id, dataset: Digest): Option<Evaluation> {
    if es == [] then None
    else if es[0].revisionId == rid && es[0].dataset == dataset then Some(es[0])
    else FindEvaluation(es[1..], rid, dataset)
  }

  function FindPlan(ps: seq<Plan>, evaluationId: Id): Option<Plan> {
    if ps == [] then None
    else if ps[0].evaluationId == evaluationId then Some(ps[0])
    else FindPlan(ps[1..], evaluationId)
  }

  function TaskIds(p: Plan): set<Id> { set t | t in p.tasks :: t.id }

  function Answered(xs: seq<PracticeRun>, pid: Id): set<Id> { set x | x in RunsOf(xs, pid) :: x.taskId }

  predicate Practised(p: Plan, xs: seq<PracticeRun>) { Answered(xs, p.id) == TaskIds(p) }

  /** The cases of the first plan of this revision whose tasks are all answered. */
  function PracticeDataset(rid: Id, ps: seq<Plan>, xs: seq<PracticeRun>): Option<seq<Case>> {
    if ps == [] then None
    else if ps[0].revisionId == rid && Practised(ps[0], xs) then Some(PracticeCases(RunsOf(xs, ps[0].id)))
    else PracticeDataset(rid, ps[1..], xs)
  }

  /** The author's own result counts as one in-scope case that supports nothing. */
  function BootstrapDataset(r: Revision, h: Handoff): seq<Case> {
    var passed := h.verdict == Pass;
    [Case(BootstrapCaseId(r.id), r.tenant, r.domain, false, false, passed, passed, false, false)]
  }

  function Dataset(r: Revision, w: Ledger, sources: seq<Handoff>): seq<Case>
    requires sources != []
  {
    var practised := PracticeDataset(r.id, w.plans, w.runs);
    if practised.Some? then practised.value else BootstrapDataset(r, sources[0])
  }

  function FindCandidates(cs: seq<Candidate>, ids: seq<Id>): (r: seq<Candidate>)
    ensures |r| <= |ids|
    ensures |r| == |ids| ==> Ids(r) == ids && forall c | c in r :: c in cs
  {
    if ids == [] then []
    else
      var i := Position(CandidateKey, cs, ids[0]);
      var rest := FindCandidates(cs, ids[1..]);
      if i < |cs| then assert ids == [ids[0]] + ids[1..]; [cs[i]] + rest else rest
  }

  function HandoffIds(cs: seq<Candidate>): (r: seq<string>)
    ensures |r| == |cs| && forall i | 0 <= i < |cs| :: r[i] == cs[i].handoffId
  {
    seq(|cs|, i requires 0 <= i < |cs| => cs[i].handoffId)
  }

  predicate HasHandoffs(hs: seq<Handoff>, ids: seq<string>) {
    forall id | id in ids :: Position(HandoffKey, hs, id) < |hs|
  }

  /** The handoffs behind the candidates, once each, in order of first use. */
  function Sources(hs: seq<Handoff>, cs: seq<Candidate>): (r: seq<Handoff>)
    requires HasHandoffs(hs, HandoffIds(cs))
    ensures cs != [] ==> r != []
  {
    var ids := Dedupe(HandoffIds(cs));
    seq(|ids|, i requires 0 <= i < |ids| => assert ids[i] in ids; hs[Position(HandoffKey, hs, ids[i])])
  }

  function Fixtures(cs: seq<Candidate>): seq<string> {
    if cs == [] then [] else cs[0].evidenceRefs + Fixtures(cs[1..])
  }

  /** The revisions an artifact already answers for: evaluated ones whose candidates it holds. */
  function ArtifactRevisions(revisions: seq<Revision>, w: Ledger): set<Id> {
    set a, e | a in w.artifacts && e in w.evaluations && e.bundle == a.bundle
               && Holds(a, CandidateIdsOf(revisions, e.revisionId)) :: e.revisionId
  }

  predicate Holds(a: Artifact, ids: seq<Id>) { forall id | id in ids :: id in a.experienceIds }

  function CandidateIdsOf(revisions: seq<Revision>, rid: Id): seq<Id> {
    var i := Position(RevisionKey, revisions, rid);
    if i < |revisions| then revisions[i].candidateIds else []
  }

  // --- One pass ---------------------------------------------------------------------------

  /** The active memory as the server reports it: a snapshot, its artifact, and the hash it is served under. */
  datatype Active = Active(snapshot: Snapshot, artifactId: Id, hash: Digest)

  /** Everything a pass asks of the outside. A missing practice runner never answers. */
  datatype Env = Env(
    runner: (Plan, Task) -> Option<Handoff>, active: Revision -> Active,
    schema: Digest, retrieval: string, words: Candidate -> Words)

  /** The events posted, and whether control came back normally. */
  datatype Step = Step(posts: seq<Event>, ok: bool)

  const NOTHING := Step([], true)

  /** Sequential composition: an exception ends the pass. */
  function Then(s: Step, t: Step): Step { if s.ok then Step(s.posts + t.posts, t.ok) else s }

  function Posting(ev: Event): Step { Step([ev], true) }

  const VALIDATE := "Validate bounded experience revision"

  function BroadPlan(r: Revision, cs: seq<Candidate>, e: Evaluation, words: Candidate -> Words): Result<Plan> {
    PlanFor(e, cs, Broad, VALIDATE, r.parent, Dedupe(Fixtures(cs)), words)
  }

  /** One turn of the practice loop. */
  function PractiseTask(env: Env, p: Plan, t: Task, answered: set<Id>): Step {
    if t.id in answered then NOTHING
    else match env.runner(p, t)
      case None => NOTHING
      case Some(h) =>
        match CompleteRun(BeginRun(p, t), h)
        case Raised => Step([HandoffPosted(h)], false)
        case Ok(x) => Step([HandoffPosted(h), PracticeCompleted(x)], true)
  }

  /** The practice loop over the tasks that had no run when it began. */
  function Practise(env: Env, p: Plan, tasks: seq<Task>, answered: set<Id>): Step {
    if tasks == [] then NOTHING
    else Then(PractiseTask(env, p, tasks[0], answered), Practise(env, p, tasks[1..], answered))
  }

  function Experiment(env: Env, r: Revision, cs: seq<Candidate>, w: Ledger, e: Evaluation): Step {
    match FindPlan(w.plans, e.id)
    case Some(p) => Practise(env, p, p.tasks, Answered(w.runs, p.id))
    case None =>
      match BroadPlan(r, cs, e, env.words)
      case Raised => Step([], false)
      case Ok(p) => Then(Posting(CurriculumPlanned(p)), Practise(env, p, p.tasks, Answered(w.runs, p.id)))
  }

  function Updated(active: Active, cs: seq<Candidate>): Snapshot {
    active.snapshot.(experiences := active.snapshot.experiences + AllReconciled(cs))
  }

  /** Both hash guards: the revision starts from the active memory and ends where it said it would. */
  predicate Guarded(active: Active, r: Revision, cs: seq<Candidate>) {
    && active.snapshot.Hash() == r.parent == active.hash
    && Updated(active, cs).Hash() == r.proposed
  }

  function FreezeStep(env: Env, r: Revision, cs: seq<Candidate>, w: Ledger): Step {
    var active := env.active(r);
    if !(active.snapshot.Hash() == r.parent == active.hash) then Step([], true)
    else if !ValidSnapshot(Updated(active, cs)) then Step([], false)
    else if !Guarded(active, r, cs) then Step([], true)
    else match Freeze(Updated(active, cs), active.hash, AcceptedOf(w.evaluations, r.id), OfBundle,
                      env.schema, env.retrieval, active.artifactId)
      case Raised => Step([], false)
      case Ok(a) => Step([ArtifactCreated(a)], true)
  }

  function AfterEvaluation(env: Env, r: Revision, cs: seq<Candidate>, w: Ledger, e: Evaluation): Step {
    if e.decision == NeedsExperiment then Experiment(env, r, cs, w, e)
    else if e.decision == Accepted then FreezeStep(env, r, cs, w)
    else Step([], true)
  }

  function Advance(env: Env, r: Revision, cs: seq<Candidate>, sources: seq<Handoff>, w: Ledger): Step
    requires sources != []
  {
    var cases := Dataset(r, w, sources);
    match FindEvaluation(w.evaluations, r.id, OfDataset(cases))
    case Some(e) => AfterEvaluation(env, r, cs, w, e)
    case None =>
      match Evaluate(r, cs, cases, sources)
      case Raised => Step([], false)
      case Ok(e) => Then(Posting(Evaluated(e)), AfterEvaluation(env, r, cs, Note(w, Evaluated(e)), e))
  }

  /** The revisions a pass leaves alone without looking further. */
  predicate Skips(i: Inputs, done: set<Id>, r: Revision) {
    r.operation == NoChange || r.id in done || |FindCandidates(i.candidates, r.candidateIds)| != |r.candidateIds|
  }

  function ReviseOne(env: Env, i: Inputs, w: Ledger, done: set<Id>, r: Revision): Step {
    if Skips(i, done, r) then Step([], true)
    else
      var cs := FindCandidates(i.candidates, r.candidateIds);
      if !HasHandoffs(i.handoffs, HandoffIds(cs)) || cs == [] then Step([], false)
      else Advance(env, r, cs, Sources(i.handoffs, cs), w)
  }

  predicate Froze(posts: seq<Event>) { exists ev | ev in posts :: ev.ArtifactCreated? }

  function DoneAfter(done: set<Id>, r: Revision, posts: seq<Event>): set<Id> {
    if Froze(posts) then done + {r.id} else done
  }

  function ReviseAll(env: Env, i: Inputs, w: Ledger, done: set<Id>, rs: seq<Revision>): Step
    decreases |rs|
  {
    if rs == [] then Step([], true)
    else
      var s := ReviseOne(env, i, w, done, rs[0]);
      Then(s, ReviseAll(env, i, NoteAll(w, s.posts), DoneAfter(done, rs[0], s.posts), rs[1..]))
  }

  /** A pass validates what it loaded before it acts. */
  predicate Loads(i: Inputs) {
    && (forall h | h in i.handoffs :: ValidHandoff(h))
    && (forall c | c in i.candidates :: ValidCandidate(c))
    && (forall r | r in i.revisions :: ValidRevision(r))
  }

  function RunPass(env: Env, log: seq<Event>): Step {
    var i, w := InputsOf(log), LedgerOf(log);
    if !Loads(i) then Step([], false)
    else ReviseAll(env, i, w, ArtifactRevisions(i.revisions, w), i.revisions)
  }

  /** What `run_once` reports: the records posted, not the raw practice handoffs. */
  function Changes(posts: seq<Event>): nat {
    if posts == [] then 0
    else Changes(posts[..|posts| - 1]) + if posts[|posts| - 1].HandoffPosted? then 0 else 1
  }

  lemma {:induction false} NoteAllConcat(w: Ledger, a: seq<Event>, b: seq<Event>)
    ensures NoteAll(w, a + b) == NoteAll(NoteAll(w, a), b)
    decreases |a|
  {
    if a == [] {
      assert a + b == b;
    } else {
      NoteAllConcat(Note(w, a[0]), a[1..], b);
      assert (a + b)[1..] == a[1..] + b;
    }
  }

  lemma NoteOne(w: Ledger, ev: Event)
    ensures NoteAll(w, [ev]) == Note(w, ev)
  {
    assert [ev][1..] == [];
  }

  class EvolutionWorker {
    var log: seq<Event>

    constructor (events: seq<Event>)
      ensures log == events
    {
      log := events;
    }

    /** An atomic append to the server's event log. */
    method Post(ev: Event)
      modifies this`log
      ensures log == old(log) + [ev]
    {
      log := log + [ev];
    }

    /** Every index is filled by one walk over the events. */
    method BuildIndexes() returns (i: Inputs, w: Ledger)
      ensures i == InputsOf(log) && w == LedgerOf(log)
    {
      i, w := Inputs([], [], []), Ledger([], [], [], []);
      assert log[..0] == [];
      for n := 0 to |log|
        invariant i == InputsOf(log[..n]) && w == LedgerOf(log[..n])
      {
        assert log[..n + 1][..n] == log[..n];
        i, w := IndexInput(i, log[n]), Index(w, log[n]);
      }
      assert log[..|log|] == log;
    }

    method PractiseOne(env: Env, p: Plan, t: Task, answered: set<Id>, known: Ledger) returns (w: Ledger, ok: bool)
      modifies this`log
      ensures var s := PractiseTask(env, p, t, answered);
        log == old(log) + s.posts && ok == s.ok && w == NoteAll(known, s.posts)
    {
      w, ok := known, true;
      if t.id in answered { return; }
      var answer := env.runner(p, t);
      if answer.None? { return; }
      Post(HandoffPosted(answer.value));
      NoteOne(known, HandoffPosted(answer.value));
      var completed := CompleteRun(BeginRun(p, t), answer.value);
      if completed.Raised? { return w, false; }
      Post(PracticeCompleted(completed.value));
      w := w.(runs := w.runs + [completed.value]);
      NoteOne(known, PracticeCompleted(completed.value));
      NoteAllConcat(known, [HandoffPosted(answer.value)], [PracticeCompleted(completed.value)]);
    }

    method PractisePlan(env: Env, p: Plan, known: Ledger) returns (w: Ledger, ok: bool)
      modifies this`log
      ensures var s := Practise(env, p, p.tasks, Answered(known.runs, p.id));
        log == old(log) + s.posts && ok == s.ok && w == NoteAll(known, s.posts)
    {
      hide PractiseTask, NoteAll, Answered;
      NoteNone(known);
      var answered := Answered(known.runs, p.id);
      ghost var whole := Practise(env, p, p.tasks, answered);
      ghost var soFar := NOTHING;
      w, ok := known, true;
      assert p.tasks[0..] == p.tasks;
      for k := 0 to |p.tasks|
        invariant ok && soFar.ok
        invariant whole == Then(soFar, Practise(env, p, p.tasks[k..], answered))
        invariant log == old(log) + soFar.posts && w == NoteAll(known, soFar.posts)
      {
        ghost var turn := PractiseTask(env, p, p.tasks[k], answered);
        ghost var rest := Practise(env, p, p.tasks[k + 1..], answered);
        assert p.tasks[k..][1..] == p.tasks[k + 1..];
        ThenAssociates(soFar, turn, rest);
        NoteAllConcat(known, soFar.posts, turn.posts);
        w, ok := PractiseOne(env, p, p.tasks[k], answered, w);
        soFar := Then(soFar, turn);
        if !ok { return; }
      }
      assert Then(soFar, NOTHING) == soFar;
    }

    method FreezeRevision(env: Env, r: Revision, cs: seq<Candidate>, known: Ledger) returns (w: Ledger, ok: bool)
      modifies this`log
      ensures var s := FreezeStep(env, r, cs, known);
        log == old(log) + s.posts && ok == s.ok && w == NoteAll(known, s.posts)
    {
      w, ok := known, true;
      var active := env.active(r);
      if active.snapshot.Hash() != r.parent || active.hash != r.parent { return; }
      var updated := Updated(active, cs);
      if !ValidSnapshot(updated) { return w, false; }
      if updated.Hash() != r.proposed { return; }
      var accepted := AcceptedOf(w.evaluations, r.id);
      var frozen := Freeze(updated, active.hash, accepted, OfBundle, env.schema, env.retrieval, active.artifactId);
      if frozen.Raised? { return w, false; }
      Post(ArtifactCreated(frozen.value));
      w := w.(artifacts := w.artifacts + [frozen.value]);
    }

    method ExperimentOn(env: Env, r: Revision, cs: seq<Candidate>, known: Ledger, e: Evaluation)
      returns (w: Ledger, ok: bool)
      modifies this`log
      ensures var s := Experiment(env, r, cs, known, e);
        log == old(log) + s.posts && ok == s.ok && w == NoteAll(known, s.posts)
    {
      hide BroadPlan, Practise, FindPlan;
      w, ok := known, true;
      var plan := FindPlan(w.plans, e.id);
      if plan.Some? {
        w, ok := PractisePlan(env, plan.value, w);
        return;
      }
      var drafted := BroadPlan(r, cs, e, env.words);
      if drafted.Raised? { return w, false; }
      Post(CurriculumPlanned(drafted.value));
      w := w.(plans := w.plans + [drafted.value]);
      NoteOne(known, CurriculumPlanned(drafted.value));
      ghost var practice := Practise(env, drafted.value, drafted.value.tasks, Answered(w.runs, drafted.value.id));
      NoteAllConcat(known, [CurriculumPlanned(drafted.value)], practice.posts);
      w, ok := PractisePlan(env, drafted.value, w);
    }

    method FollowEvaluation(env: Env, r: Revision, cs: seq<Candidate>, known: Ledger, e: Evaluation)
      returns (w: Ledger, ok: bool)
      modifies this`log
      ensures var s := AfterEvaluation(env, r, cs, known, e);
        log == old(log) + s.posts && ok == s.ok && w == NoteAll(known, s.posts)
    {
      w, ok := known, true;
      if e.decision == NeedsExperiment {
        w, ok := ExperimentOn(env, r, cs, known, e);
      } else if e.decision == Accepted {
        w, ok := FreezeRevision(env, r, cs, known);
      }
    }

    method AdvanceRevision(env: Env, r: Revision, cs: seq<Candidate>, sources: seq<Handoff>, known: Ledger)
      returns (w: Ledger, ok: bool)
      requires sources != []
      modifies this`log
      ensures var s := Advance(env, r, cs, sources, known);
        log == old(log) + s.posts && ok == s.ok && w == NoteAll(known, s.posts)
    {
      hide Evaluate, AfterEvaluation, Dataset, FindEvaluation;
      w, ok := known, true;
      var cases := FindDataset(r, w, sources);
      var found := FindEvaluation(w.evaluations, r.id, OfDataset(cases));
      if found.Some? {
        w, ok := FollowEvaluation(env, r, cs, w, found.value);
        return;
      }
      var e := Evaluate(r, cs, cases, sources);
      if e.Raised? { return w, false; }
      Post(Evaluated(e.value));
      w := w.(evaluations := w.evaluations + [e.value]);
      NoteOne(known, Evaluated(e.value));
      NoteAllConcat(known, [Evaluated(e.value)], AfterEvaluation(env, r, cs, w, e.value).posts);
      w, ok := FollowEvaluation(env, r, cs, w, e.value);
    }

    method Revise(env: Env, i: Inputs, known: Ledger, done: set<Id>, r: Revision) returns (w: Ledger, ok: bool)
      modifies this`log
      ensures var s := ReviseOne(env, i, known, done, r);
        log == old(log) + s.posts && ok == s.ok && w == NoteAll(known, s.posts)
    {
      w, ok := known, true;
      if Skips(i, done, r) { return; }
      var cs := FindCandidates(i.candidates, r.candidateIds);
      if !HasHandoffs(i.handoffs, HandoffIds(cs)) || cs == [] { return w, false; }
      w, ok := AdvanceRevision(env, r, cs, Sources(i.handoffs, cs), w);
    }

    method FindDataset(r: Revision, w: Ledger, sources: seq<Handoff>) returns (cases: seq<Case>)
      requires sources != []
      ensures cases == Dataset(r, w, sources)
    {
      for k := 0 to |w.plans|
        invariant PracticeDataset(r.id, w.plans, w.runs) == PracticeDataset(r.id, w.plans[k..], w.runs)
      {
        var p := w.plans[k];
        assert w.plans[k..][0] == p && w.plans[k..][1..] == w.plans[k + 1..];
        if p.revisionId == r.id && Practised(p, w.runs) {
          var completed := RunsOf(w.runs, p.id);
          cases := [];
          for n := 0 to |completed|
            invariant cases == PracticeCases(completed)[..n]
          {
            cases := cases + [PracticeCase(completed[n])];
          }
          return;
        }
      }
      return BootstrapDataset(r, sources[0]);
    }

    method ReviseEach(env: Env, i: Inputs, known: Ledger, covered: set<Id>) returns (ok: bool)
      modifies this`log
      ensures var s := ReviseAll(env, i, known, covered, i.revisions);
        log == old(log) + s.posts && ok == s.ok
    {
      hide ReviseOne, ReviseAll, NoteAll, DoneAfter;
      var w, done := known, covered;
      ghost var soFar := NOTHING;
      ok := true;
      assert i.revisions[0..] == i.revisions;
      assert log == old(log) + soFar.posts;
      for k := 0 to |i.revisions|
        invariant ok && soFar.ok
        invariant ReviseAll(env, i, known, covered, i.revisions)
               == Then(soFar, ReviseAll(env, i, w, done, i.revisions[k..]))
        invariant log == old(log) + soFar.posts
      {
        var r, frozen := i.revisions[k], |w.artifacts|;
        ghost var turn := ReviseOne(env, i, w, done, r);
        ReviseAllUnfolds(env, i, w, done, i.revisions, k);
        ThenAssociates(soFar, turn,
          ReviseAll(env, i, NoteAll(w, turn.posts), DoneAfter(done, r, turn.posts), i.revisions[k + 1..]));
        DoneByGrowth(w, done, r, turn.posts);
        w, ok := Revise(env, i, w, done, r);
        assert log == old(log) + (soFar.posts + turn.posts);
        soFar := Then(soFar, turn);
        if !ok { return; }
        if |w.artifacts| > frozen { done := done + {r.id}; }
      }
      assert i.revisions[|i.revisions|..] == [];
      ReviseNone(env, i, w, done);
      assert Then(soFar, NOTHING) == soFar;
    }

    /** One pass: exactly the posts `RunPass` prescribes, in order, until done or raised. */
    method RunOnce(env: Env) returns (ok: bool, changed: nat)
      modifies this`log
      ensures var s := RunPass(env, old(log));
        log == old(log) + s.posts && ok == s.ok && changed == Changes(s.posts)
    {
      ok, changed := false, 0;
      var start := |log|;
      var i, w := BuildIndexes();
      if Loads(i) {
        ok := ReviseEach(env, i, w, ArtifactRevisions(i.revisions, w));
        changed := Changes(log[start..]);
      }
    }
  }

  lemma NoteNone(w: Ledger)
    ensures NoteAll(w, []) == w
  {
  }

  lemma ReviseNone(env: Env, i: Inputs, w: Ledger, done: set<Id>)
    ensures ReviseAll(env, i, w, done, []) == NOTHING
  {
  }

  lemma DoneByGrowth(w: Ledger, done: set<Id>, r: Revision, posts: seq<Event>)
    ensures DoneAfter(done, r, posts)
      == if |NoteAll(w, posts).artifacts| > |w.artifacts| then done + {r.id} else done
  {
    ArtifactsGrow(w, posts);
  }

  lemma ReviseAllUnfolds(env: Env, i: Inputs, w: Ledger, done: set<Id>, rs: seq<Revision>, k: nat)
    requires k < |rs|
    ensures var s := ReviseOne(env, i, w, done, rs[k]);
      ReviseAll(env, i, w, done, rs[k..])
      == Then(s, ReviseAll(env, i, NoteAll(w, s.posts), DoneAfter(done, rs[k], s.posts), rs[k + 1..]))
  {
    hide ReviseOne;
    assert rs[k..][0] == rs[k] && rs[k..][1..] == rs[k + 1..];
  }

  lemma ThenAssociates(a: Step, b: Step, c: Step)
    ensures Then(a, Then(b, c)) == Then(Then(a, b), c)
  {
    if a.ok && b.ok {
      assert a.posts + (b.posts + c.posts) == (a.posts + b.posts) + c.posts;
    }
  }

  lemma {:induction false} ArtifactsGrow(w: Ledger, posts: seq<Event>)
    ensures |NoteAll(w, posts).artifacts| >= |w.artifacts|
    ensures |NoteAll(w, posts).artifacts| > |w.artifacts| <==> Froze(posts)
    decreases |posts|
  {
    if posts != [] {
      ArtifactsGrow(Note(w, posts[0]), posts[1..]);
      assert posts == [posts[0]] + posts[1..];
    }
  }
}
