/**
 The immutable records of the governed experience lifecycle.

 A digest is symbolic: it is the constructor that was applied together with the
 content it was applied to, so two digests are equal exactly when their contents
 are. A digest field that a record carries about itself (`candidate_hash`,
 `revision_hash`, ...) is therefore not stored; it is the digest of the record.
 Identifiers cut out of digests are the digests' preimages in the same way.
 */
module Records {
  import opened Sequences
  import Normalization

  datatype Verdict = Pass | Fail
  datatype HandoffMode = SameSession | Reconstructed
  datatype Kind = Procedure | Constraint | FailureLesson | RoutingHint | BoundaryCondition
  datatype CausalStatus = ObservedAssociation | MechanismHypothesis | InterventionSupported
  datatype CandidateStatus = Proposed | Reconciled | Discarded
  datatype Operation = Add | Qualify | Supersede | Retract | NoChange
  datatype Decision = Accepted | Rejected | NeedsExperiment
  datatype Stage = Broad | Deep
  datatype RunStatus = Running | Completed | Failed

  datatype Digest =
    | OfText(text: string)
    | OfBundle
    | OfSnapshot(tenant: string, domain: string, binding: string, experiences: seq<Candidate>)
    | OfHandoff(handoff: Handoff)
    | OfCandidate(candidate: Candidate)
    | OfRevision(revision: Revision)
    | OfDataset(cases: seq<Case>)
    | OfEvaluation(evaluation: Evaluation)
    | OfPlanIdentity(evaluationHash: Digest, stage: Stage, objective: string, memory: Digest, fixtures: seq<string>)
    | OfPlan(plan: Plan)

  datatype Id =
    | Named(name: string)
    | ExperienceId(handoffHash: Digest, index: nat, conclusion: string)
    | RevisionId(candidateHash: Digest, parent: Digest, proposed: Digest, operation: Operation)
    | BootstrapCaseId(revisionId: Id)
    | EvaluationId(revisionHash: Digest, dataset: Digest, bundle: Digest)
    | CurriculumId(identity: Digest)
    | TaskId(planIdentity: Digest, sequence: nat)
    | RunId(planHash: Digest, taskId: Id)
    | ArtifactId(snapshotHash: Digest, parentHash: Digest, evaluations: multiset<Digest>, schema: Digest, retrieval: string)

  /** An entry of `action_refs`; the binding of a practice run to its task is one of them. */
  datatype Ref = Plain(text: string) | PracticeBinding(curriculum: Id, task: Id)

  datatype Handoff = Handoff(
    id: string, tenant: string, domain: string, subject: string,
    mode: HandoffMode, verdict: Verdict, actionRefs: seq<Ref>, proofRefs: seq<string>, evidenceRefs: seq<string>,
    reportHash: Digest, outcomeHash: Digest, conclusions: seq<string>, uncertainties: seq<string>,
    parentMemory: Digest, eligible: bool, createdAt: int)

  datatype Candidate = Candidate(
    id: Id, handoffId: string, tenant: string, domain: string,
    kind: Kind, causal: CausalStatus,
    condition: string, action: string, outcome: string, mechanism: Option<string>,
    evidenceRefs: seq<string>, counterexampleRefs: seq<string>, applicability: string,
    invalidation: seq<string>, uncertainty: real,
    parentMemory: Digest, status: CandidateStatus)

  datatype Revision = Revision(
    id: Id, tenant: string, domain: string, binding: string,
    parent: Digest, candidateIds: seq<Id>, operation: Operation,
    target: Option<Id>, conflictsWith: seq<Id>, rationale: string, proposed: Digest)

  datatype Case = Case(
    id: Id, tenant: string, domain: string,
    supports: bool, counterexample: bool, parentSucceeded: bool, candidateSucceeded: bool,
    negativeTransfer: bool, mechanismVerified: bool)

  /** The counters of an evaluation; every rate has the denominator `max(1, inScope)`. */
  datatype Tally = Tally(
    outOfScope: nat, inScope: nat, support: nat, counterexamples: nat,
    candidateWins: nat, parentWins: nat, negativeTransfers: nat, mechanism: bool)

  datatype Evaluation = Evaluation(
    id: Id, revisionId: Id, tenant: string, domain: string, bundle: Digest, dataset: Digest,
    tally: Tally, regressionCases: nat, unsupportedCausal: nat,
    decision: Decision, concerns: seq<string>, eligible: bool, evaluatedAt: int)

  datatype Task = Task(
    id: Id, sequence: nat, objective: string, fixtures: seq<string>,
    tests: seq<string>, targetRetry: bool)

  datatype Budget = Budget(maxTasks: nat, maxCalls: nat, maxCost: nat, maxWallTime: nat)

  datatype Plan = Plan(
    id: Id, evaluationId: Id, revisionId: Id, candidateIds: seq<Id>, tenant: string, domain: string,
    stage: Stage, objectiveHash: Digest, memory: Digest, hypotheses: seq<string>,
    tasks: seq<Task>, budget: Budget, createdAt: int)

  datatype PracticeRun = PracticeRun(
    id: Id, curriculumId: Id, taskId: Id, tenant: string, domain: string, memory: Digest,
    status: RunStatus, verdict: Option<Verdict>, reportHash: Option<Digest>, outcomeHash: Option<Digest>,
    handoffId: Option<string>, startedAt: int, endedAt: Option<int>)

  datatype Snapshot = Snapshot(tenant: string, domain: string, binding: string, experiences: seq<Candidate>) {
    function Hash(): Digest { OfSnapshot(tenant, domain, binding, experiences) }
  }

  datatype Artifact = Artifact(
    id: Id, tenant: string, domain: string, binding: string, parentArtifact: Id,
    parentHash: Digest, artifactHash: Digest, schema: Digest,
    experienceIds: seq<Id>, experiences: seq<Candidate>, bundle: Digest, retrieval: string,
    eligible: bool, createdAt: int)

  // --- The integrity validators, where a validator can fail ------------------------------

  /** Nothing is left of the text once white space is stripped. */
  predicate Blank(s: string) {
    forall c | c in s :: Normalization.Space(c)
  }

  predicate ValidHandoff(h: Handoff) {
    && h.eligible == h.mode.SameSession?
    && h.proofRefs != [] && Distinct(h.proofRefs) && (forall s | s in h.proofRefs :: !Blank(s))
    && h.evidenceRefs != [] && Distinct(h.evidenceRefs) && (forall s | s in h.evidenceRefs :: !Blank(s))
    && h.conclusions != [] && Distinct(h.conclusions) && (forall s | s in h.conclusions :: !Blank(s))
    && h.actionRefs != [] && Distinct(h.actionRefs) && (forall r | r in h.actionRefs && r.Plain? :: !Blank(r.text))
  }

  predicate ValidCandidate(c: Candidate) {
    && (c.causal != ObservedAssociation <==> c.mechanism.Some? && !Blank(c.mechanism.value))
    && c.evidenceRefs != [] && Distinct(c.evidenceRefs)
  }

  predicate ValidRevision(r: Revision) {
    && (r.operation in {Qualify, Supersede, Retract} <==> r.target.Some?)
    && (r.operation == NoChange <==> r.candidateIds == [])
    && Distinct(r.candidateIds)
  }

  predicate ValidSnapshot(s: Snapshot) {
    forall c | c in s.experiences :: c.tenant == s.tenant && c.domain == s.domain
  }

  /** Release eligibility is only ever claimed for a safe acceptance. */
  predicate ValidEvaluation(e: Evaluation) {
    e.eligible ==>
      && e.decision == Accepted
      && e.unsupportedCausal == 0
      && e.tally.outOfScope == 0
      && 100 * e.tally.negativeTransfers <= AtLeastOne(e.tally.inScope)
  }

  predicate ValidPlan(p: Plan) {
    && p.candidateIds != [] && Distinct(p.candidateIds)
    && p.hypotheses != [] && Distinct(p.hypotheses)
    && p.tasks != [] && |p.tasks| <= p.budget.maxTasks
    && (forall i | 0 <= i < |p.tasks| :: p.tasks[i].sequence == i + 1)
    && (forall t | t in p.tasks :: 0 < |t.objective| <= 2048 && t.fixtures != [] && t.tests != [])
    && (p.stage == Deep ==> p.tasks[|p.tasks| - 1].targetRetry)
  }

  predicate ValidArtifact(a: Artifact) {
    && a.experiences != [] && Distinct(a.experienceIds)
    && a.experienceIds == Ids(a.experiences)
    && a.artifactHash == OfSnapshot(a.tenant, a.domain, a.binding, a.experiences)
    && forall c | c in a.experiences :: c.status == Reconciled && c.tenant == a.tenant && c.domain == a.domain
  }

  function AtLeastOne(n: nat): (m: nat) ensures m >= 1 && m >= n { if n == 0 then 1 else n }

  function Ids(cs: seq<Candidate>): (r: seq<Id>)
    ensures |r| == |cs| && forall i | 0 <= i < |cs| :: r[i] == cs[i].id
  {
    seq(|cs|, i requires 0 <= i < |cs| => cs[i].id)
  }

  /** A candidate as it enters memory: the same claim with its status re-sealed. */
  function AsReconciled(c: Candidate): Candidate { c.(status := Reconciled) }

  function AllReconciled(cs: seq<Candidate>): (r: seq<Candidate>)
    ensures |r| == |cs| && forall i | 0 <= i < |cs| :: r[i] == AsReconciled(cs[i])
  {
    seq(|cs|, i requires 0 <= i < |cs| => AsReconciled(cs[i]))
  }
}
