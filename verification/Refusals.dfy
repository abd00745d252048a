/**
 What a pass finds in a log, when it raises before it acts, and when freezing raises, is left undone, or
 posts an artifact.
 */
module Refusals {
  import opened Sequences
  import opened Records
  import opened Artifacts
  import opened Worker
  import Normalization

  // --- Loading ----------------------------------------------------------------------------

  /** Some texts, none repeated and none blank. */
  predicate Filled(texts: seq<string>) {
    && |texts| > 0
    && (forall i, j | 0 <= i < j < |texts| :: texts[i] != texts[j])
    && forall i | 0 <= i < |texts| :: exists c | c in texts[i] :: !Normalization.Space(c)
  }

  /** A handoff that a pass cannot work with. */
  predicate MalformedHandoff(h: Handoff) {
    || (h.eligible && h.mode == Reconstructed) || (!h.eligible && h.mode == SameSession)
    || !Filled(h.proofRefs) || !Filled(h.evidenceRefs) || !Filled(h.conclusions)
    || h.actionRefs == [] || (exists i, j | 0 <= i < j < |h.actionRefs| :: h.actionRefs[i] == h.actionRefs[j])
    || exists ref | ref in h.actionRefs :: ref.Plain? && forall c | c in ref.text :: Normalization.Space(c)
  }

  /** A claim of a cause without a mechanism, a mechanism without a cause, or evidence missing or repeated. */
  predicate MalformedCandidate(c: Candidate) {
    var explained := c.mechanism.Some? && exists ch | ch in c.mechanism.value :: !Normalization.Space(ch);
    || (c.causal == ObservedAssociation && explained) || (c.causal != ObservedAssociation && !explained)
    || c.evidenceRefs == [] || exists i, j | 0 <= i < j < |c.evidenceRefs| :: c.evidenceRefs[i] == c.evidenceRefs[j]
  }

  /** A target without a target operation or the other way round, claims with NO_CHANGE or none without it, or repeats. */
  predicate MalformedRevision(r: Revision) {
    || (r.target.Some? && (r.operation == Add || r.operation == NoChange))
    || (r.target.None? && r.operation != Add && r.operation != NoChange)
    || (r.operation == NoChange && r.candidateIds != []) || (r.operation != NoChange && r.candidateIds == [])
    || exists i, j | 0 <= i < j < |r.candidateIds| :: r.candidateIds[i] == r.candidateIds[j]
  }

  /** A pass gets to its revisions exactly when no input is malformed, and otherwise raises with nothing posted. */
  lemma PassStartsIff(env: Env, log: seq<Event>)
    ensures var i, w := InputsOf(log), LedgerOf(log);
      RunPass(env, log) ==
        if (exists h | h in i.handoffs :: MalformedHandoff(h)) || (exists c | c in i.candidates :: MalformedCandidate(c))
           || exists r | r in i.revisions :: MalformedRevision(r)
        then Step([], false)
        else ReviseAll(env, i, w, ArtifactRevisions(i.revisions, w), i.revisions)
  {
    hide InputsOf, LedgerOf, ReviseAll, ArtifactRevisions, MalformedHandoff, MalformedCandidate, MalformedRevision,
      ValidHandoff, ValidCandidate, ValidRevision;
    forall h ensures ValidHandoff(h) <==> !MalformedHandoff(h) { HandoffFits(h); }
    forall c ensures ValidCandidate(c) <==> !MalformedCandidate(c) { CandidateFits(c); }
    forall r ensures ValidRevision(r) <==> !MalformedRevision(r) { RevisionFits(r); }
  }

  lemma FilledIff(texts: seq<string>)
    ensures Filled(texts) <==> texts != [] && Distinct(texts) && forall s | s in texts :: !Blank(s)
  {
    if Filled(texts) {
      forall s | s in texts ensures !Blank(s) { var i :| 0 <= i < |texts| && texts[i] == s; }
    } else if texts != [] && Distinct(texts) {
      var i :| 0 <= i < |texts| && forall c | c in texts[i] :: Normalization.Space(c);
      assert texts[i] in texts;
    }
  }

  lemma HandoffFits(h: Handoff) ensures ValidHandoff(h) <==> !MalformedHandoff(h) {
    hide Filled;
    FilledIff(h.proofRefs);
    FilledIff(h.evidenceRefs);
    FilledIff(h.conclusions);
  }

  lemma CandidateFits(c: Candidate) ensures ValidCandidate(c) <==> !MalformedCandidate(c) {}

  lemma RevisionFits(r: Revision) ensures ValidRevision(r) <==> !MalformedRevision(r) {}

  // --- The indexes ------------------------------------------------------------------------

  /** Two events of one kind about one subject. */
  predicate SameSubject(a: Event, b: Event) {
    match a
    case HandoffReady(h) => b.HandoffReady? && b.handoff.id == h.id
    case CandidateDistilled(c) => b.CandidateDistilled? && b.candidate.id == c.id
    case RevisionReconciled(r) => b.RevisionReconciled? && b.revision.id == r.id
    case Evaluated(e) => b.Evaluated? && b.evaluation.id == e.id
    case CurriculumPlanned(p) => b.CurriculumPlanned? && b.plan.id == p.id
    case PracticeCompleted(x) => b.PracticeCompleted? && b.run.id == x.id
    case ArtifactCreated(a) => b.ArtifactCreated? && b.artifact.id == a.id
    case HandoffPosted(_) => false
  }

  /** The event is in the log, and no later one is about the same subject. */
  predicate Stands(log: seq<Event>, ev: Event) {
    exists k | 0 <= k < |log| :: log[k] == ev && forall l | k < l < |log| :: !SameSubject(ev, log[l])
  }

  lemma StandsAppend(log: seq<Event>, last: Event, ev: Event)
    ensures Stands(log + [last], ev) <==> ev == last || (Stands(log, ev) && !SameSubject(ev, last))
  {
    var all := log + [last];
    assert all[|log|] == last && forall i | 0 <= i < |log| :: all[i] == log[i];
    if k :| 0 <= k < |log| && log[k] == ev && forall l | k < l < |log| :: !SameSubject(ev, log[l]) {
      if !SameSubject(ev, last) { assert all[k] == ev; }
    }
    if ev == last { assert all[|log|] == ev; }
  }

  lemma PutIs<K, V>(key: V -> K, s: seq<V>, v: V)
    requires OneEach(key, s)
    ensures OneEach(key, Put(key, s, v))
    ensures forall x :: x in Put(key, s, v) <==> x == v || (x in s && key(x) != key(v))
  {
    var i, r := Position(key, s, key(v)), Put(key, s, v);
    forall x ensures x in r <==> x == v || (x in s && key(x) != key(v)) {
      if x in s && key(x) != key(v) {
        var j :| 0 <= j < |s| && s[j] == x;
        assert r[j] == x;
      }
      if x == v { assert r[i] == v; }
    }
  }

  /** For any log, each index holds, once each, exactly the records that no later event about the same subject replaces. */
  lemma {:induction false} IndexesHoldTheLatest(log: seq<Event>)
    ensures var w := LedgerOf(log);
      && OneEach(EvaluationKey, w.evaluations) && (forall e :: e in w.evaluations <==> Stands(log, Evaluated(e)))
      && OneEach(PlanKey, w.plans) && (forall p :: p in w.plans <==> Stands(log, CurriculumPlanned(p)))
      && OneEach(RunKey, w.runs) && (forall x :: x in w.runs <==> Stands(log, PracticeCompleted(x)))
      && OneEach(ArtifactKey, w.artifacts) && (forall a :: a in w.artifacts <==> Stands(log, ArtifactCreated(a)))
  {
    hide Stands, OneEach, Put;
    if log == [] {
      NothingStands();
    } else {
      var n := |log| - 1;
      var front, ev := log[..n], log[n];
      IndexesHoldTheLatest(front);
      assert log == front + [ev];
      forall e ensures Stands(log, e) <==> e == ev || (Stands(front, e) && !SameSubject(e, ev)) { StandsAppend(front, ev, e); }
      var w := LedgerOf(front);
      match ev
      case Evaluated(e) => PutIs(EvaluationKey, w.evaluations, e);
      case CurriculumPlanned(p) => PutIs(PlanKey, w.plans, p);
      case PracticeCompleted(x) => PutIs(RunKey, w.runs, x);
      case ArtifactCreated(a) => PutIs(ArtifactKey, w.artifacts, a);
      case _ =>
    }
  }

  lemma {:induction false} InputsHoldTheLatest(log: seq<Event>)
    ensures var i := InputsOf(log);
      && OneEach(HandoffKey, i.handoffs) && (forall h :: h in i.handoffs <==> Stands(log, HandoffReady(h)))
      && OneEach(CandidateKey, i.candidates) && (forall c :: c in i.candidates <==> Stands(log, CandidateDistilled(c)))
      && OneEach(RevisionKey, i.revisions) && (forall r :: r in i.revisions <==> Stands(log, RevisionReconciled(r)))
  {
    hide Stands, OneEach, Put;
    if log == [] {
      NothingStands();
    } else {
      var n := |log| - 1;
      var front, ev := log[..n], log[n];
      InputsHoldTheLatest(front);
      assert log == front + [ev];
      forall e ensures Stands(log, e) <==> e == ev || (Stands(front, e) && !SameSubject(e, ev)) { StandsAppend(front, ev, e); }
      var i := InputsOf(front);
      match ev
      case HandoffReady(h) => PutIs(HandoffKey, i.handoffs, h);
      case CandidateDistilled(c) => PutIs(CandidateKey, i.candidates, c);
      case RevisionReconciled(r) => PutIs(RevisionKey, i.revisions, r);
      case _ =>
    }
  }

  lemma NothingStands()
    ensures forall ev :: !Stands([], ev)
    ensures OneEach(EvaluationKey, []) && OneEach(PlanKey, []) && OneEach(RunKey, []) && OneEach(ArtifactKey, [])
    ensures OneEach(HandoffKey, []) && OneEach(CandidateKey, []) && OneEach(RevisionKey, [])
  {
  }

  // --- Turns that come to nothing ---------------------------------------------------------

  lemma FoundIff<K, V>(key: V -> K, s: seq<V>, k: K)
    ensures Position(key, s, k) < |s| <==> exists x | x in s :: key(x) == k
  {
    if x :| x in s && key(x) == k { var j :| 0 <= j < |s| && s[j] == x; }
  }

  predicate There(cs: seq<Candidate>, id: Id) { exists c | c in cs :: c.id == id }

  lemma {:induction false} CandidatesAreThere(cs: seq<Candidate>, ids: seq<Id>)
    ensures |FindCandidates(cs, ids)| == |ids| <==> forall id | id in ids :: There(cs, id)
  {
    hide There, FindCandidates;
    if ids == [] {
      FindsOneMore(cs, ids);
    } else {
      var first, rest := ids[0], ids[1..];
      CandidatesAreThere(cs, rest);
      FindsOneMore(cs, ids);
      CandidateIsThere(cs, first);
      assert forall id :: id in ids <==> id == first || id in rest;
    }
  }

  lemma FindsOneMore(cs: seq<Candidate>, ids: seq<Id>)
    ensures |FindCandidates(cs, ids)| ==
      if ids == [] then 0
      else |FindCandidates(cs, ids[1..])| + if Position(CandidateKey, cs, ids[0]) < |cs| then 1 else 0
  {
  }

  lemma CandidateIsThere(cs: seq<Candidate>, id: Id)
    ensures Position(CandidateKey, cs, id) < |cs| <==> There(cs, id)
  {
    FoundIff(CandidateKey, cs, id);
    assert forall c: Candidate :: CandidateKey(c) == c.id;
  }

  /** A revision is passed over when it changes nothing, is done, or lacks a candidate. */
  lemma PassedOver(env: Env, i: Inputs, w: Ledger, done: set<Id>, r: Revision)
    requires r.operation == NoChange || r.id in done
          || exists id | id in r.candidateIds :: !There(i.candidates, id)
    ensures ReviseOne(env, i, w, done, r) == Step([], true)
  {
    hide Advance;
    CandidatesAreThere(i.candidates, r.candidateIds);
  }

  /** Otherwise, a candidate whose handoff is missing raises before anything is posted. */
  lemma LacksHandoff(env: Env, i: Inputs, w: Ledger, done: set<Id>, r: Revision, c: Candidate)
    requires r.operation != NoChange && r.id !in done
    requires forall id | id in r.candidateIds :: There(i.candidates, id)
    requires c in FindCandidates(i.candidates, r.candidateIds) && forall h | h in i.handoffs :: h.id != c.handoffId
    ensures ReviseOne(env, i, w, done, r) == Step([], false)
  {
    hide Advance;
    CandidatesAreThere(i.candidates, r.candidateIds);
    var cs := FindCandidates(i.candidates, r.candidateIds);
    var k :| 0 <= k < |cs| && cs[k] == c;
    assert HandoffIds(cs)[k] in HandoffIds(cs);
    FoundIff(HandoffKey, i.handoffs, c.handoffId);
    assert forall h: Handoff :: HandoffKey(h) == h.id;
  }

  // --- Freezing ---------------------------------------------------------------------------

  /** Memory of one scope that holds no id twice and is all reconciled, on verdicts of its scope and of the worker's bundle. */
  predicate Sealable(s: Snapshot, accepted: seq<Evaluation>) {
    && s.experiences != [] && accepted != []
    && (forall i, j | 0 <= i < j < |s.experiences| :: s.experiences[i].id != s.experiences[j].id)
    && (forall x | x in s.experiences :: x.status == Reconciled && x.tenant == s.tenant && x.domain == s.domain)
    && forall e | e in accepted :: e.tenant == s.tenant && e.domain == s.domain && e.bundle == OfBundle
  }

  /**
   Freezing is left undone when the revision does not start from the active memory or would not end where it said;
   it raises when the extended memory leaves its scope, or could be frozen but for what it holds.
   */
  lemma FreezingMeans(env: Env, r: Revision, cs: seq<Candidate>, w: Ledger)
    ensures var s, active := FreezeStep(env, r, cs, w), env.active(r);
      var extended := Snapshot(active.snapshot.tenant, active.snapshot.domain, active.snapshot.binding,
                               active.snapshot.experiences + AllReconciled(cs));
      var starts := active.snapshot.Hash() == r.parent && active.hash == r.parent;
      var scoped := forall x | x in extended.experiences :: x.tenant == extended.tenant && x.domain == extended.domain;
      var ends := extended.Hash() == r.proposed;
      && (s.ok <==> (starts ==> scoped && (ends ==> Sealable(extended, AcceptedOf(w.evaluations, r.id)))))
      && (s.posts != [] <==> starts && ends && s.ok)
  {
    hide Hashes, Greatest, ValidArtifact;
    var active := env.active(r);
    var extended := Updated(active, cs);
    FreezesIffSound(extended, active.hash, AcceptedOf(w.evaluations, r.id), OfBundle, env.schema, env.retrieval,
                    active.artifactId);
  }

  lemma {:induction false} AcceptedAre(es: seq<Evaluation>, rid: Id, e: Evaluation)
    ensures e in AcceptedOf(es, rid) <==> e in es && e.revisionId == rid && e.decision == Accepted
  {
    if es != [] {
      AcceptedAre(es[1..], rid, e);
      assert es == [es[0]] + es[1..];
    }
  }
}
