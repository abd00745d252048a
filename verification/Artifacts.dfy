/** Freezing a memory snapshot with its evaluations into a candidate artifact. */
module Artifacts {
  import opened Sequences
  import opened Records

  function Hashes(evaluations: seq<Evaluation>): multiset<Digest> {
    if evaluations == [] then multiset{}
    else Hashes(evaluations[..|evaluations| - 1]) + multiset{OfEvaluation(evaluations[|evaluations| - 1])}
  }

  function EvaluatedAt(e: Evaluation): int { e.evaluatedAt }

  function Freeze(
      snapshot: Snapshot, parentHash: Digest, evaluations: seq<Evaluation>, bundle: Digest,
      schema: Digest, retrieval: string, parentArtifact: Id): Result<Artifact>
  {
    if snapshot.experiences == [] || evaluations == [] then Raised
    else if exists e | e in evaluations :: e.tenant != snapshot.tenant || e.domain != snapshot.domain || e.bundle != bundle
    then Raised
    else
      var eligible := forall e | e in evaluations :: e.decision == Accepted && e.eligible;
      var a := Artifact(
        ArtifactId(snapshot.Hash(), parentHash, Hashes(evaluations), schema, retrieval),
        snapshot.tenant, snapshot.domain, snapshot.binding, parentArtifact, parentHash, snapshot.Hash(), schema,
        Ids(snapshot.experiences), snapshot.experiences, bundle, retrieval, eligible,
        Greatest(EvaluatedAt, evaluations));
      if ValidArtifact(a) then Ok(a) else Raised
  }

  lemma HashesAppend(es: seq<Evaluation>, e: Evaluation)
    ensures Hashes(es + [e]) == Hashes(es) + multiset{OfEvaluation(e)}
  {
    assert (es + [e])[..|es|] == es;
  }

  lemma {:induction false} HashesRemove(es: seq<Evaluation>, k: nat)
    requires k < |es|
    ensures Hashes(es) == Hashes(es[..k] + es[k + 1..]) + multiset{OfEvaluation(es[k])}
  {
    hide Hashes;
    var n := |es| - 1;
    var front := es[..n];
    assert es == front + [es[n]];
    HashesAppend(front, es[n]);
    if k == n {
      assert es[..k] + es[k + 1..] == front;
    } else {
      var inner := front[..k] + front[k + 1..];
      HashesRemove(front, k);
      assert es[..k] + es[k + 1..] == inner + [es[n]];
      HashesAppend(inner, es[n]);
    }
  }

  lemma {:induction false} HashesForgetOrder(es: seq<Evaluation>, fs: seq<Evaluation>)
    requires multiset(es) == multiset(fs)
    ensures Hashes(es) == Hashes(fs)
  {
    if es == [] {
      assert |multiset(fs)| == 0;
    } else {
      var n := |es| - 1;
      assert es[n] in multiset(es) && es[n] in fs;
      var k := TakeOut(fs, es[n]);
      assert es == es[..n] + [es[n]];
      HashesForgetOrder(es[..n], fs[..k] + fs[k + 1..]);
      HashesRemove(fs, k);
    }
  }

  lemma GreatestCovers(es: seq<Evaluation>, fs: seq<Evaluation>)
    requires es != [] && fs != [] && forall e | e in es :: e in fs
    ensures Greatest(EvaluatedAt, es) <= Greatest(EvaluatedAt, fs)
  {
    var i :| 0 <= i < |es| && EvaluatedAt(es[i]) == Greatest(EvaluatedAt, es);
    assert es[i] in fs;
  }

  /** The artifact, its identity included, does not depend on the order in which its evaluations are listed. */
  lemma OrderOfEvaluationsIsIrrelevant(
      snapshot: Snapshot, parentHash: Digest, es: seq<Evaluation>, fs: seq<Evaluation>, bundle: Digest,
      schema: Digest, retrieval: string, parentArtifact: Id)
    requires multiset(es) == multiset(fs)
    ensures Freeze(snapshot, parentHash, es, bundle, schema, retrieval, parentArtifact)
         == Freeze(snapshot, parentHash, fs, bundle, schema, retrieval, parentArtifact)
  {
    hide ValidArtifact, Hashes, Greatest;
    HashesForgetOrder(es, fs);
    forall e ensures e in es <==> e in fs { assert e in es <==> e in multiset(es); assert e in fs <==> e in multiset(fs); }
    assert |es| == |multiset(es)| == |multiset(fs)| == |fs|;
    if es != [] {
      GreatestCovers(es, fs);
      GreatestCovers(fs, es);
    }
  }

  lemma DistinctIdsIff(cs: seq<Candidate>)
    ensures Distinct(Ids(cs)) <==> forall i, j | 0 <= i < j < |cs| :: cs[i].id != cs[j].id
  {
    var ids := Ids(cs);
    assert forall i | 0 <= i < |cs| :: ids[i] == cs[i].id;
  }

  /** What may be frozen: reconciled experiences of one scope, no id twice. */
  predicate Freezable(s: Snapshot) {
    && s.experiences != []
    && (forall i, j | 0 <= i < j < |s.experiences| :: s.experiences[i].id != s.experiences[j].id)
    && forall c | c in s.experiences :: c.status == Reconciled && c.tenant == s.tenant && c.domain == s.domain
  }

  /** Freezing succeeds exactly on freezable memory with at least one evaluation, all of its scope and of one bundle. */
  lemma FreezesIffSound(
      snapshot: Snapshot, parentHash: Digest, es: seq<Evaluation>, bundle: Digest, schema: Digest, retrieval: string,
      parentArtifact: Id)
    ensures Freeze(snapshot, parentHash, es, bundle, schema, retrieval, parentArtifact).Ok? <==>
      && Freezable(snapshot) && es != []
      && forall e | e in es :: e.tenant == snapshot.tenant && e.domain == snapshot.domain && e.bundle == bundle
  {
    hide Hashes, Greatest, Distinct, Ids;
    DistinctIdsIff(snapshot.experiences);
  }

  /** A frozen artifact passes its own validator, and is eligible exactly when every evaluation behind it is. */
  lemma FrozenIsValid(
      snapshot: Snapshot, parentHash: Digest, es: seq<Evaluation>, bundle: Digest, schema: Digest, retrieval: string,
      parentArtifact: Id)
    requires Freeze(snapshot, parentHash, es, bundle, schema, retrieval, parentArtifact).Ok?
    ensures var a := Freeze(snapshot, parentHash, es, bundle, schema, retrieval, parentArtifact).value;
      && ValidArtifact(a) && a.artifactHash == snapshot.Hash() && a.experiences == snapshot.experiences
      && (forall e | e in es :: e.tenant == a.tenant && e.domain == a.domain && e.bundle == a.bundle)
      && (a.eligible <==> forall e | e in es :: e.decision == Accepted && e.eligible)
  {
  }
}
