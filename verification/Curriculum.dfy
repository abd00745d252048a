/**
 Planning bounded practice for an inconclusive evaluation, and the practice-run
 contracts. Nothing here executes a task.
 */
module Curriculum {
  import opened Sequences
  import opened Records
  import Claims
  import Normalization

  /** The two texts a claim is sealed from: the hexadecimal candidate digest and the JSON payload. */
  datatype Words = Words(hash: string, payload: Claims.JsonText)

  const VERIFY := "Verify or falsify every frozen candidate experience against immutable fixtures."
  const SEARCH := "Search specifically for counterexamples and declared failure boundaries."
  const DISCRIMINATE := "Discriminate hypothesis: "
  const RETRY := "Retry the original target after focused practice: "

  function ClaimFragments(candidates: seq<Candidate>, words: Candidate -> Words): (r: seq<string>)
    ensures forall f :: f in r <==> exists c | c in candidates :: f in Claims.Fragments(words(c).hash, words(c).payload)
    ensures candidates != [] ==> r != []
  {
    if candidates == [] then []
    else
      assert candidates == [candidates[0]] + candidates[1..];
      Claims.Fragments(words(candidates[0]).hash, words(candidates[0]).payload) + ClaimFragments(candidates[1..], words)
  }

  function Others(hypotheses: seq<string>, claims: seq<string>): (r: seq<string>)
    ensures forall h :: h in r <==> h in hypotheses && h !in claims
  {
    if hypotheses == [] then []
    else
      assert hypotheses == [hypotheses[0]] + hypotheses[1..];
      (if hypotheses[0] in claims then [] else [hypotheses[0]]) + Others(hypotheses[1..], claims)
  }

  function SingleTasks(hypotheses: seq<string>, fixtures: seq<string>, identity: Digest, done: nat): seq<Task> {
    if hypotheses == [] then []
    else
      [Task(TaskId(identity, done + 1), done + 1, DISCRIMINATE + hypotheses[0], Dedupe(fixtures), [hypotheses[0]], false)]
      + SingleTasks(hypotheses[1..], fixtures, identity, done + 1)
  }

  function Limit(stage: Stage): nat { if stage == Deep then 1 else 2 }

  function VerifyTask(claims: seq<string>, fixtures: seq<string>, identity: Digest): Task {
    Task(TaskId(identity, 1), 1, VERIFY, Dedupe(fixtures), claims, false)
  }

  function SearchTask(claims: seq<string>, others: seq<string>, fixtures: seq<string>, identity: Digest): Task {
    Task(TaskId(identity, 2), 2, SEARCH, Dedupe(fixtures), claims + others, false)
  }

  function RetryTask(target: string, tests: seq<string>, fixtures: seq<string>, identity: Digest, done: nat): Task {
    Task(TaskId(identity, done + 1), done + 1, RETRY + target, Dedupe(fixtures), tests, true)
  }

  function TasksOf(
      stage: Stage, target: string, hypotheses: seq<string>, fixtures: seq<string>,
      identity: Digest, fragments: seq<string>): seq<Task>
  {
    var claims := Dedupe(fragments);
    var others := Others(hypotheses, claims);
    var limit := if |hypotheses| < Limit(stage) then |hypotheses| else Limit(stage);
    var body :=
      if claims == [] then SingleTasks(hypotheses[..limit], fixtures, identity, 0)
      else if stage == Broad && others != []
      then [VerifyTask(claims, fixtures, identity), SearchTask(claims, others, fixtures, identity)]
      else [VerifyTask(claims, fixtures, identity)];
    if stage == Deep
    then body + [RetryTask(target, Dedupe(claims + hypotheses), fixtures, identity, |body|)]
    else body
  }

  method ListSingleTasks(hypotheses: seq<string>, fixtures: seq<string>, identity: Digest) returns (tasks: seq<Task>)
    ensures tasks == SingleTasks(hypotheses, fixtures, identity, 0)
  {
    tasks := [];
    for i := 0 to |hypotheses|
      invariant SingleTasks(hypotheses, fixtures, identity, 0) == tasks + SingleTasks(hypotheses[i..], fixtures, identity, i)
    {
      var task := Task(TaskId(identity, i + 1), i + 1, DISCRIMINATE + hypotheses[i], Dedupe(fixtures), [hypotheses[i]], false);
      assert hypotheses[i..][1..] == hypotheses[i + 1..];
      assert SingleTasks(hypotheses[i..], fixtures, identity, i)
          == [task] + SingleTasks(hypotheses[i + 1..], fixtures, identity, i + 1);
      ghost var rest := SingleTasks(hypotheses[i + 1..], fixtures, identity, i + 1);
      assert tasks + ([task] + rest) == (tasks + [task]) + rest;
      tasks := tasks + [task];
    }
  }

  /** The task list as it is built, by appending. */
  method Tasks(
      stage: Stage, target: string, hypotheses: seq<string>, fixtures: seq<string>,
      identity: Digest, fragments: seq<string>) returns (tasks: seq<Task>)
    ensures tasks == TasksOf(stage, target, hypotheses, fixtures, identity, fragments)
  {
    var claims := Dedupe(fragments);
    var others := Others(hypotheses, claims);
    if claims != [] {
      tasks := [VerifyTask(claims, fixtures, identity)];
    } else {
      var limit := if |hypotheses| < Limit(stage) then |hypotheses| else Limit(stage);
      tasks := ListSingleTasks(hypotheses[..limit], fixtures, identity);
    }
    if claims != [] && stage == Broad && others != [] {
      tasks := tasks + [SearchTask(claims, others, fixtures, identity)];
    }
    if stage == Deep {
      tasks := tasks + [RetryTask(target, Dedupe(claims + hypotheses), fixtures, identity, |tasks|)];
    }
  }

  function AtLeast(n: nat, floor: nat): nat { if n < floor then floor else n }

  /** The plan with the default budget, before validation. */
  function Draft(
      e: Evaluation, candidates: seq<Candidate>, stage: Stage, target: string, memory: Digest,
      fixtures: seq<string>, words: Candidate -> Words): Plan
  {
    var fragments := ClaimFragments(candidates, words);
    var hypotheses := Dedupe(fragments + e.concerns);
    var identity := OfPlanIdentity(OfEvaluation(e), stage, target, memory, Dedupe(fixtures));
    var tasks := TasksOf(stage, target, hypotheses, fixtures, identity, fragments);
    Plan(CurriculumId(identity), e.id, e.revisionId, Ids(candidates), e.tenant, e.domain, stage,
         OfText(target), memory, hypotheses, tasks,
         Budget(AtLeast(|tasks|, 4), AtLeast(2 * |tasks|, 2), 100_000, 900_000), e.evaluatedAt)
  }

  predicate Plannable(e: Evaluation, candidates: seq<Candidate>, target: string, fixtures: seq<string>) {
    && !Blank(target) && fixtures != []
    && forall c | c in candidates :: c.tenant == e.tenant && c.domain == e.domain
  }

  function PlanFor(
      e: Evaluation, candidates: seq<Candidate>, stage: Stage, target: string, memory: Digest,
      fixtures: seq<string>, words: Candidate -> Words): Result<Plan>
  {
    if !Plannable(e, candidates, target, fixtures) then Raised
    else
      var p := Draft(e, candidates, stage, target, memory, fixtures, words);
      if ValidPlan(p) then Ok(p) else Raised
  }

  // --- What a plan guarantees -------------------------------------------------------------

  ghost predicate ReadableHashes(candidates: seq<Candidate>, words: Candidate -> Words) {
    && (forall c | c in candidates :: '|' !in words(c).hash)
    && (forall c, d | c in candidates && d in candidates :: words(c).hash == words(d).hash ==> words(c) == words(d))
  }

  /** A concern is prose: it never looks like a sealed fragment. */
  ghost predicate Prose(texts: seq<string>) {
    forall s | s in texts :: !(Claims.PREFIX <= s)
  }

  /** Every candidate's whole payload can be read back out of the plan's hypotheses. */
  lemma ClaimsRecovered(
      e: Evaluation, candidates: seq<Candidate>, stage: Stage, target: string, memory: Digest,
      fixtures: seq<string>, words: Candidate -> Words, c: Candidate)
    requires c in candidates && ReadableHashes(candidates, words) && Prose(e.concerns)
    ensures var p := Draft(e, candidates, stage, target, memory, fixtures, words);
      Claims.Recover(p.hypotheses, words(c).hash) == Some(words(c).payload)
  {
    var fragments := ClaimFragments(candidates, words);
    var hypotheses := Dedupe(fragments + e.concerns);
    var hash, payload := words(c).hash, words(c).payload;
    forall f | f in Claims.Fragments(hash, payload) ensures f in hypotheses {
      assert f in fragments;
    }
    forall h | h in hypotheses && Claims.Read(h).Some? && Claims.Read(h).value.hash == hash
      ensures h in Claims.Fragments(hash, payload)
    {
      assert h in fragments;
      var d :| d in candidates && h in Claims.Fragments(words(d).hash, words(d).payload);
      var fs := Claims.Fragments(words(d).hash, words(d).payload);
      var i :| 0 <= i < |fs| && fs[i] == h;
      Claims.ReadFragment(words(d).hash, i + 1, |fs|, Claims.Chunk(words(d).payload, i));
    }
    Claims.RecoverClaim(hypotheses, hash, payload);
  }

  predicate Tests(tasks: seq<Task>, h: string) { exists i | 0 <= i < |tasks| :: h in tasks[i].tests }

  /** The second task of a list, when there is one. */
  function SecondTask(
      stage: Stage, target: string, hypotheses: seq<string>, fixtures: seq<string>,
      identity: Digest, fragments: seq<string>): Task
  {
    var claims := Dedupe(fragments);
    if stage == Deep then RetryTask(target, Dedupe(claims + hypotheses), fixtures, identity, 1)
    else SearchTask(claims, Others(hypotheses, claims), fixtures, identity)
  }

  /** The tasks for at least one sealed claim: one, or two when there is something else to settle. */
  lemma TaskShape(
      stage: Stage, target: string, hypotheses: seq<string>, fixtures: seq<string>,
      identity: Digest, fragments: seq<string>)
    requires fragments != []
    ensures TasksOf(stage, target, hypotheses, fixtures, identity, fragments) ==
      [VerifyTask(Dedupe(fragments), fixtures, identity)]
      + (if stage == Deep || exists h | h in hypotheses :: h !in fragments
         then [SecondTask(stage, target, hypotheses, fixtures, identity, fragments)] else [])
  {
    var others := Others(hypotheses, Dedupe(fragments));
    if others != [] { assert others[0] in others; }
  }

  /** Task lists are numbered from one, retry the target exactly at the end of a deep plan, and fit a budget of two. */
  lemma TaskNumbering(
      stage: Stage, target: string, hypotheses: seq<string>, fixtures: seq<string>,
      identity: Digest, fragments: seq<string>)
    requires fragments != []
    ensures var tasks := TasksOf(stage, target, hypotheses, fixtures, identity, fragments);
      && 1 <= |tasks| <= 2
      && (|tasks| == 2 <==> stage == Deep || exists h | h in hypotheses :: h !in fragments)
      && (forall i | 0 <= i < |tasks| :: tasks[i].sequence == i + 1 && tasks[i].id == TaskId(identity, i + 1))
      && (forall i | 0 <= i < |tasks| :: tasks[i].targetRetry <==> stage == Deep && i == |tasks| - 1)
      && (forall f | f in fragments :: f in tasks[0].tests)
  {
    TaskShape(stage, target, hypotheses, fixtures, identity, fragments);
  }

  /** Every hypothesis is tested by some task, and nothing else is. */
  lemma TasksTestHypotheses(
      stage: Stage, target: string, hypotheses: seq<string>, fixtures: seq<string>,
      identity: Digest, fragments: seq<string>, h: string)
    requires fragments != [] && forall f | f in fragments :: f in hypotheses
    ensures Tests(TasksOf(stage, target, hypotheses, fixtures, identity, fragments), h) <==> h in hypotheses
  {
    var tasks := TasksOf(stage, target, hypotheses, fixtures, identity, fragments);
    TaskShape(stage, target, hypotheses, fixtures, identity, fragments);
    if h in hypotheses {
      if h in fragments { assert h in tasks[0].tests; } else { assert h in tasks[1].tests; }
    }
  }

  /** The shape of every plan for at least one candidate. */
  lemma PlanShape(
      e: Evaluation, candidates: seq<Candidate>, stage: Stage, target: string, memory: Digest,
      fixtures: seq<string>, words: Candidate -> Words)
    requires candidates != []
    ensures var p := Draft(e, candidates, stage, target, memory, fixtures, words);
      && 1 <= |p.tasks| <= 2
      && (|p.tasks| == 2 <==> stage == Deep || exists h | h in e.concerns :: h !in ClaimFragments(candidates, words))
      && (forall i | 0 <= i < |p.tasks| :: p.tasks[i].sequence == i + 1 && p.tasks[i].id == TaskId(p.id.identity, i + 1))
      && (forall i | 0 <= i < |p.tasks| :: p.tasks[i].targetRetry <==> stage == Deep && i == |p.tasks| - 1)
      && (forall f | f in ClaimFragments(candidates, words) :: f in p.tasks[0].tests)
      && |p.tasks| <= p.budget.maxTasks && 2 * |p.tasks| <= p.budget.maxCalls
  {
    hide TasksOf, ClaimFragments, Dedupe;
    var fragments := ClaimFragments(candidates, words);
    var hypotheses := Dedupe(fragments + e.concerns);
    var identity := OfPlanIdentity(OfEvaluation(e), stage, target, memory, Dedupe(fixtures));
    TaskNumbering(stage, target, hypotheses, fixtures, identity, fragments);
    assert (exists h | h in hypotheses :: h !in fragments) <==> exists h | h in e.concerns :: h !in fragments by {
      forall h | h in e.concerns && h !in fragments ensures h in hypotheses {
        assert h in fragments + e.concerns;
      }
    }
  }

  /** The hypotheses a plan's tasks test are exactly the plan's hypotheses. */
  lemma PlanTestsHypotheses(
      e: Evaluation, candidates: seq<Candidate>, stage: Stage, target: string, memory: Digest,
      fixtures: seq<string>, words: Candidate -> Words, h: string)
    requires candidates != []
    ensures var p := Draft(e, candidates, stage, target, memory, fixtures, words);
      Tests(p.tasks, h) <==> h in p.hypotheses
  {
    var fragments := ClaimFragments(candidates, words);
    var hypotheses := Dedupe(fragments + e.concerns);
    var identity := OfPlanIdentity(OfEvaluation(e), stage, target, memory, Dedupe(fixtures));
    TasksTestHypotheses(stage, target, hypotheses, fixtures, identity, fragments, h);
  }

  // --- What the tasks and the plan say ----------------------------------------------------

  lemma OthersFrom(h: string, rest: seq<string>, claims: seq<string>)
    ensures Others([h] + rest, claims) == (if h in claims then [] else [h]) + Others(rest, claims)
    ensures Others([], claims) == []
  {
    assert ([h] + rest)[1..] == rest;
  }

  lemma {:induction false} OthersAppend(hypotheses: seq<string>, h: string, claims: seq<string>)
    ensures Others(hypotheses + [h], claims) == Others(hypotheses, claims) + if h in claims then [] else [h]
  {
    hide Others;
    if hypotheses == [] {
      OthersFrom(h, [], claims);
      assert [] + [h] == [h] + [];
    } else {
      var first, rest := hypotheses[0], hypotheses[1..];
      OthersAppend(rest, h, claims);
      OthersFrom(first, rest, claims);
      OthersFrom(first, rest + [h], claims);
      assert hypotheses == [first] + rest;
      assert hypotheses + [h] == [first] + (rest + [h]);
    }
  }

  /** Adding distinct texts to a de-duplicated list adds the ones it does not have, in order. */
  lemma {:induction false} DedupeAbsorbs(a: seq<string>, b: seq<string>)
    requires Distinct(b)
    ensures Dedupe(a + b) == Dedupe(a) + Others(b, Dedupe(a))
  {
    hide Others, Dedupe;
    if b == [] {
      OthersFrom("", [], Dedupe(a));
      assert a + b == a;
    } else {
      var n := |b| - 1;
      var front, x := b[..n], b[n];
      DedupeAbsorbs(a, front);
      OthersAppend(front, x, Dedupe(a));
      assert b == front + [x];
      DedupeAppend(a + front, x);
      assert a + b == (a + front) + [x];
      assert x in a + front <==> x in Dedupe(a);
    }
  }

  lemma DedupeAppend(a: seq<string>, x: string)
    ensures Dedupe(a + [x]) == Dedupe(a) + if x in a then [] else [x]
  {
    assert (a + [x])[..|a|] == a;
  }

  lemma {:induction false} DedupePrefix(a: seq<string>, b: seq<string>)
    ensures Dedupe(a) <= Dedupe(a + b)
  {
    if b == [] {
      assert a + b == a;
    } else {
      DedupePrefix(a, b[..|b| - 1]);
      assert (a + b)[..|a + b| - 1] == a + b[..|b| - 1];
    }
  }

  lemma {:induction false} NoOthers(hypotheses: seq<string>, claims: seq<string>)
    requires forall h | h in hypotheses :: h in claims
    ensures Others(hypotheses, claims) == []
  {
    if hypotheses != [] { NoOthers(hypotheses[1..], claims); }
  }

  lemma {:induction false} OthersOfPrefix(claims: seq<string>, hypotheses: seq<string>)
    requires Distinct(hypotheses) && claims <= hypotheses
    ensures claims + Others(hypotheses, claims) == hypotheses
  {
    if claims == hypotheses {
      NoOthers(hypotheses, claims);
    } else {
      var n := |hypotheses| - 1;
      OthersOfPrefix(claims, hypotheses[..n]);
      OthersAppend(hypotheses[..n], hypotheses[n], claims);
      assert hypotheses == hypotheses[..n] + [hypotheses[n]];
    }
  }

  lemma TasksAsk(
      stage: Stage, target: string, hypotheses: seq<string>, fixtures: seq<string>,
      identity: Digest, fragments: seq<string>)
    requires fragments != [] && Distinct(hypotheses) && Dedupe(fragments) <= hypotheses
    ensures var tasks := TasksOf(stage, target, hypotheses, fixtures, identity, fragments);
      && tasks[|tasks| - 1].tests == hypotheses && OnceInOrder(tasks[0].tests, fragments)
      && tasks[0].objective == VERIFY
      && (|tasks| == 2 ==> tasks[1].objective == if stage == Deep then RETRY + target else SEARCH)
      && forall t | t in tasks :: OnceInOrder(t.fixtures, fixtures)
  {
    hide OnceInOrder, Dedupe, Others;
    var claims := Dedupe(fragments);
    TaskShape(stage, target, hypotheses, fixtures, identity, fragments);
    DedupeOnceInOrder(fragments);
    DedupeOnceInOrder(fixtures);
    DedupeAbsorbs(claims, hypotheses);
    DedupeDistinct(claims);
    OthersOfPrefix(claims, hypotheses);
    var others := Others(hypotheses, claims);
    if others == [] { assert claims + [] == claims; } else { assert others[0] in others; }
  }

  /**
   The tasks of every plan for at least one candidate: each has exactly the given fixtures, once each and in order; the
   first verifies exactly the sealed claims; the last tests every hypothesis of the plan.
   */
  lemma PlanTasks(
      e: Evaluation, candidates: seq<Candidate>, stage: Stage, target: string, memory: Digest,
      fixtures: seq<string>, words: Candidate -> Words)
    requires candidates != []
    ensures var p := Draft(e, candidates, stage, target, memory, fixtures, words);
      && p.tasks != [] && p.tasks[|p.tasks| - 1].tests == p.hypotheses
      && OnceInOrder(p.tasks[0].tests, ClaimFragments(candidates, words)) && p.tasks[0].objective == VERIFY
      && (|p.tasks| == 2 ==> p.tasks[1].objective == if stage == Deep then RETRY + target else SEARCH)
      && forall t | t in p.tasks :: OnceInOrder(t.fixtures, fixtures)
  {
    hide TasksOf, ClaimFragments, Dedupe, OnceInOrder;
    PlanShape(e, candidates, stage, target, memory, fixtures, words);
    var fragments := ClaimFragments(candidates, words);
    DedupePrefix(fragments, e.concerns);
    var identity := OfPlanIdentity(OfEvaluation(e), stage, target, memory, Dedupe(fixtures));
    TasksAsk(stage, target, Dedupe(fragments + e.concerns), fixtures, identity, fragments);
  }

  /** What a plan records of its evaluation, its candidates and its inputs, and what it may spend. */
  lemma PlanRecords(
      e: Evaluation, candidates: seq<Candidate>, stage: Stage, target: string, memory: Digest,
      fixtures: seq<string>, words: Candidate -> Words)
    requires candidates != []
    ensures var p := Draft(e, candidates, stage, target, memory, fixtures, words);
      && p.evaluationId == e.id && p.revisionId == e.revisionId && p.tenant == e.tenant && p.domain == e.domain
      && p.createdAt == e.evaluatedAt && p.stage == stage && p.memory == memory && p.objectiveHash == OfText(target)
      && |p.candidateIds| == |candidates| && (forall i | 0 <= i < |candidates| :: p.candidateIds[i] == candidates[i].id)
      && OnceInOrder(p.hypotheses, ClaimFragments(candidates, words) + e.concerns)
      && p.budget == Budget(4, 2 * |p.tasks|, 100_000, 900_000)
      && p.id.CurriculumId? && p.id.identity.OfPlanIdentity?
      && p.id.identity.evaluationHash == OfEvaluation(e) && p.id.identity.stage == stage
      && p.id.identity.objective == target && p.id.identity.memory == memory && OnceInOrder(p.id.identity.fixtures, fixtures)
  {
    hide TasksOf, ClaimFragments, Dedupe, OnceInOrder;
    PlanShape(e, candidates, stage, target, memory, fixtures, words);
    DedupeOnceInOrder(ClaimFragments(candidates, words) + e.concerns);
    DedupeOnceInOrder(fixtures);
  }

  /** The fragments of a list of claims are those of its parts, one after the other. */
  lemma {:induction false} FragmentsConcat(a: seq<Candidate>, b: seq<Candidate>, words: Candidate -> Words)
    ensures ClaimFragments(a + b, words) == ClaimFragments(a, words) + ClaimFragments(b, words)
    ensures forall c :: ClaimFragments([c], words) == Claims.Fragments(words(c).hash, words(c).payload)
  {
    forall c ensures ClaimFragments([c], words) == Claims.Fragments(words(c).hash, words(c).payload) {
      assert [c][1..] == [];
    }
    if a == [] {
      assert a + b == b;
    } else {
      FragmentsConcat(a[1..], b, words);
      assert (a + b)[1..] == a[1..] + b;
    }
  }

  lemma {:induction false} SingleTaskRecords(hypotheses: seq<string>, fixtures: seq<string>, identity: Digest, done: nat)
    ensures var tasks := SingleTasks(hypotheses, fixtures, identity, done);
      && |tasks| == |hypotheses|
      && forall i | 0 <= i < |tasks| ::
           && tasks[i].id == TaskId(identity, done + i + 1) && tasks[i].sequence == done + i + 1
           && tasks[i].objective == DISCRIMINATE + hypotheses[i] && !tasks[i].targetRetry
           && tasks[i].tests == [hypotheses[i]] && OnceInOrder(tasks[i].fixtures, fixtures)
  {
    hide OnceInOrder;
    if hypotheses != [] {
      DedupeOnceInOrder(fixtures);
      SingleTaskRecords(hypotheses[1..], fixtures, identity, done + 1);
    }
  }

  lemma UnsealedAre(stage: Stage, target: string, hypotheses: seq<string>, fixtures: seq<string>, identity: Digest)
    ensures var n := if |hypotheses| < Limit(stage) then |hypotheses| else Limit(stage);
      var singles := SingleTasks(hypotheses[..n], fixtures, identity, 0);
      TasksOf(stage, target, hypotheses, fixtures, identity, []) ==
        singles + if stage == Deep then [RetryTask(target, Dedupe(hypotheses), fixtures, identity, |singles|)] else []
  {
    hide Others, SingleTasks;
    assert Dedupe<string>([]) == [];
    assert [] + hypotheses == hypotheses;
  }

  /** Without a sealed claim the first hypotheses get a task each: two of them, or one before the retry of a deep plan. */
  lemma UnsealedTasks(stage: Stage, target: string, hypotheses: seq<string>, fixtures: seq<string>, identity: Digest)
    ensures var tasks := TasksOf(stage, target, hypotheses, fixtures, identity, []);
      var most := if stage == Deep then 1 else 2;
      var n := if |hypotheses| < most then |hypotheses| else most;
      && |tasks| == n + (if stage == Deep then 1 else 0)
      && (forall i | 0 <= i < n ::
            tasks[i].objective == DISCRIMINATE + hypotheses[i] && tasks[i].tests == [hypotheses[i]] && !tasks[i].targetRetry)
      && (stage == Deep ==>
            tasks[n].targetRetry && tasks[n].objective == RETRY + target && OnceInOrder(tasks[n].tests, hypotheses))
      && (forall i | 0 <= i < |tasks| :: tasks[i].sequence == i + 1 && OnceInOrder(tasks[i].fixtures, fixtures))
  {
    hide OnceInOrder, TasksOf, SingleTasks, Dedupe;
    UnsealedAre(stage, target, hypotheses, fixtures, identity);
    var n := if |hypotheses| < Limit(stage) then |hypotheses| else Limit(stage);
    SingleTaskRecords(hypotheses[..n], fixtures, identity, 0);
    DedupeOnceInOrder(hypotheses);
    DedupeOnceInOrder(fixtures);
  }

  predicate TaskValid(t: Task) { 0 < |t.objective| <= 2048 && t.fixtures != [] && t.tests != [] }

  lemma TasksValidIff(
      stage: Stage, target: string, hypotheses: seq<string>, fixtures: seq<string>,
      identity: Digest, fragments: seq<string>)
    requires fragments != [] && fixtures != []
    ensures (forall t | t in TasksOf(stage, target, hypotheses, fixtures, identity, fragments) :: TaskValid(t))
      <==> (stage == Deep ==> |RETRY| + |target| <= 2048)
  {
    TaskShape(stage, target, hypotheses, fixtures, identity, fragments);
    var tasks := TasksOf(stage, target, hypotheses, fixtures, identity, fragments);
    var second := SecondTask(stage, target, hypotheses, fixtures, identity, fragments);
    assert TaskValid(VerifyTask(Dedupe(fragments), fixtures, identity));
    assert TaskValid(second) <==> (stage == Deep ==> |RETRY| + |target| <= 2048);
    assert stage == Deep ==> second in tasks;
  }

  /** Planning succeeds exactly on a stated target, fixtures, and distinct in-scope candidates. */
  lemma PlanSucceedsIff(
      e: Evaluation, candidates: seq<Candidate>, stage: Stage, target: string, memory: Digest,
      fixtures: seq<string>, words: Candidate -> Words)
    ensures PlanFor(e, candidates, stage, target, memory, fixtures, words).Ok? <==>
      && (exists ch | ch in target :: !Normalization.Space(ch)) && fixtures != []
      && (forall c | c in candidates :: c.tenant == e.tenant && c.domain == e.domain)
      && candidates != [] && Distinct(Ids(candidates))
      && (stage == Deep ==> |RETRY| + |target| <= 2048)
  {
    hide TasksOf, ClaimFragments, Dedupe;
    if candidates != [] && fixtures != [] {
      PlanShape(e, candidates, stage, target, memory, fixtures, words);
      var p := Draft(e, candidates, stage, target, memory, fixtures, words);
      TasksValidIff(stage, target, p.hypotheses, fixtures, p.id.identity, ClaimFragments(candidates, words));
      assert (forall t | t in p.tasks :: 0 < |t.objective| <= 2048 && t.fixtures != [] && t.tests != [])
        <==> forall t | t in p.tasks :: TaskValid(t);
      assert |p.candidateIds| == |candidates|;
    }
  }

  // --- Practice runs ----------------------------------------------------------------------

  function BeginRun(p: Plan, t: Task): PracticeRun {
    PracticeRun(RunId(OfPlan(p), t.id), p.id, t.id, p.tenant, p.domain, p.memory,
                Running, None, None, None, None, p.createdAt, None)
  }

  function BeginBatch(p: Plan): (runs: seq<PracticeRun>)
    ensures |runs| == |p.tasks| && forall i | 0 <= i < |runs| :: runs[i] == BeginRun(p, p.tasks[i])
  {
    seq(|p.tasks|, i requires 0 <= i < |p.tasks| => BeginRun(p, p.tasks[i]))
  }

  /** A handoff closes a run only in its own scope, on its own memory, and when bound to its task. */
  predicate Closes(x: PracticeRun, h: Handoff) {
    && h.tenant == x.tenant && h.domain == x.domain && h.parentMemory == x.memory
    && PracticeBinding(x.curriculumId, x.taskId) in h.actionRefs
  }

  function CompleteRun(x: PracticeRun, h: Handoff): Result<PracticeRun> {
    if !Closes(x, h) then Raised
    else Ok(x.(status := Completed, verdict := Some(h.verdict), reportHash := Some(h.reportHash),
               outcomeHash := Some(h.outcomeHash), handoffId := Some(h.id), endedAt := Some(h.createdAt)))
  }

  /** A handoff closes the run of a task exactly when it has the plan's scope and memory and is bound to the task. */
  lemma ClosesIff(p: Plan, t: Task, h: Handoff)
    ensures CompleteRun(BeginRun(p, t), h).Ok? <==>
      h.tenant == p.tenant && h.domain == p.domain && h.parentMemory == p.memory && PracticeBinding(p.id, t.id) in h.actionRefs
  {
  }

  predicate Covers(p: Plan, runs: seq<PracticeRun>) {
    (set x | x in runs :: x.taskId) == (set t | t in p.tasks :: t.id)
  }

  /** The last run recorded for a task, as a dictionary keyed by task keeps it. */
  function LastRun(runs: seq<PracticeRun>, taskId: Id): (r: Option<PracticeRun>)
    ensures r.Some? ==> r.value in runs && r.value.taskId == taskId
    ensures r.None? ==> forall x | x in runs :: x.taskId != taskId
  {
    if runs == [] then None
    else
      var n := |runs| - 1;
      assert runs == runs[..n] + [runs[n]];
      if runs[n].taskId == taskId then Some(runs[n]) else LastRun(runs[..n], taskId)
  }

  /** `validate_batch`, true where it returns and false where it raises. */
  predicate BatchAccepted(p: Plan, runs: seq<PracticeRun>)
    requires p.tasks != []
  {
    && Covers(p, runs)
    && (forall x | x in runs ::
          && x.curriculumId == p.id && x.tenant == p.tenant && x.domain == p.domain && x.memory == p.memory
          && x.status in {Completed, Failed})
    && (p.stage == Deep ==>
          var target := p.tasks[|p.tasks| - 1];
          target.targetRetry && LastRun(runs, target.id).Some? && LastRun(runs, target.id).value.verdict == Some(Pass))
  }

  /** The run is the last one listed for its task. */
  predicate LastOfTask(runs: seq<PracticeRun>, k: nat) {
    k < |runs| && forall l | k < l < |runs| :: runs[l].taskId != runs[k].taskId
  }

  lemma {:induction false} LastRunIs(runs: seq<PracticeRun>, taskId: Id) returns (k: nat)
    requires exists x | x in runs :: x.taskId == taskId
    ensures LastOfTask(runs, k) && runs[k].taskId == taskId && LastRun(runs, taskId) == Some(runs[k])
  {
    k := |runs| - 1;
    if runs[k].taskId != taskId {
      assert runs == runs[..k] + [runs[k]];
      k := LastRunIs(runs[..k], taskId);
    }
  }

  predicate HasRun(runs: seq<PracticeRun>, t: Task) { exists x | x in runs :: x.taskId == t.id }
  predicate HasTask(p: Plan, x: PracticeRun) { exists t | t in p.tasks :: x.taskId == t.id }

  /** The last run listed for the task passed. */
  predicate LastPassed(runs: seq<PracticeRun>, t: Task) {
    exists k | 0 <= k < |runs| :: LastOfTask(runs, k) && runs[k].taskId == t.id && runs[k].verdict == Some(Pass)
  }

  lemma CoversIff(p: Plan, runs: seq<PracticeRun>)
    ensures Covers(p, runs) <==> (forall t | t in p.tasks :: HasRun(runs, t)) && forall x | x in runs :: HasTask(p, x)
  {
    var ran, asked := set x | x in runs :: x.taskId, set t | t in p.tasks :: t.id;
    if Covers(p, runs) {
      forall t | t in p.tasks ensures HasRun(runs, t) { assert t.id in asked; }
      forall x | x in runs ensures HasTask(p, x) { assert x.taskId in ran; }
    }
    if (forall t | t in p.tasks :: HasRun(runs, t)) && forall x | x in runs :: HasTask(p, x) {
      assert ran == asked;
    }
  }

  lemma LastPassedIff(runs: seq<PracticeRun>, t: Task)
    requires HasRun(runs, t)
    ensures LastPassed(runs, t) <==> LastRun(runs, t.id).Some? && LastRun(runs, t.id).value.verdict == Some(Pass)
  {
    var k := LastRunIs(runs, t.id);
  }

  /**
   A batch is accepted exactly when each task has a run and each run a task, every run is closed and of this plan, and
   the last run of a deep plan's last task, a target retry, passed.
   */
  lemma BatchAcceptedIff(p: Plan, runs: seq<PracticeRun>)
    requires p.tasks != []
    ensures BatchAccepted(p, runs) <==>
      && (forall t | t in p.tasks :: HasRun(runs, t)) && (forall x | x in runs :: HasTask(p, x))
      && (forall x | x in runs ::
            x.curriculumId == p.id && x.tenant == p.tenant && x.domain == p.domain && x.memory == p.memory
            && x.status != Running)
      && (p.stage == Deep ==> p.tasks[|p.tasks| - 1].targetRetry && LastPassed(runs, p.tasks[|p.tasks| - 1]))
  {
    hide HasRun, HasTask, LastPassed, Covers, LastRun;
    CoversIff(p, runs);
    var last := p.tasks[|p.tasks| - 1];
    if HasRun(runs, last) { LastPassedIff(runs, last); }
  }

  /** A batch begun from a plan and closed run by run is accepted unless a deep plan's retry failed. */
  lemma CompletedBatch(p: Plan, handoffs: seq<Handoff>, runs: seq<PracticeRun>)
    requires ValidPlan(p) && |handoffs| == |runs| == |p.tasks|
    requires forall i, j | 0 <= i < j < |p.tasks| :: p.tasks[i].id != p.tasks[j].id
    requires forall i | 0 <= i < |runs| :: CompleteRun(BeginBatch(p)[i], handoffs[i]) == Ok(runs[i])
    ensures BatchAccepted(p, runs) <==> (p.stage == Deep ==> handoffs[|handoffs| - 1].verdict == Pass)
  {
    assert forall i | 0 <= i < |runs| :: runs[i].taskId == p.tasks[i].id;
    forall t | t in p.tasks ensures exists x | x in runs :: x.taskId == t.id {
      var i :| 0 <= i < |p.tasks| && p.tasks[i] == t;
      assert runs[i] in runs;
    }
    forall x | x in runs ensures exists t | t in p.tasks :: t.id == x.taskId {
      var i :| 0 <= i < |runs| && runs[i] == x;
      assert p.tasks[i] in p.tasks;
    }
    assert Covers(p, runs);
    var n := |runs| - 1;
    assert LastRun(runs, p.tasks[n].id) == Some(runs[n]);
  }
}
