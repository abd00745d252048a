/** From a reconciled batch to frozen memory: what the worker makes of the revisions of a batch. */
module Pipeline {
  import opened Sequences
  import opened Records
  import opened Worker
  import opened Lifecycle
  import opened Histories
  import opened Restart
  import opened Overtaking
  import opened Freezing
  import opened Evaluator
  import opened Refinement
  import opened Guarantees
  import Reconciler
  import Learning

  /**
   A memory-changing revision of a batch, met when the memory its predecessors left is active, is
   frozen exactly when its practice passes, it claims no cause and it meets no error; and then the frozen memory is
   the one the batch went on from.
   */
  lemma BatchRevisionFreezesIff(
      env: Env, norm: Reconciler.Norm, cs: seq<Candidate>, s: Snapshot, i: nat, sources: seq<Handoff>, artifactId: Id)
    requires i < |cs| && sources != [] && Reconciler.Proposals(norm, cs, s)[i].operation != NoChange
    requires env.active(Reconciler.Proposals(norm, cs, s)[i])
          == Reconciler.Serving(Reconciler.MergedAll(norm, cs[..i], s), artifactId)
    requires Material(Reconciler.Proposals(norm, cs, s)[i], [cs[i]], sources).Valid()
    ensures var m := Material(Reconciler.Proposals(norm, cs, s)[i], [cs[i]], sources);
      var after := Reconciler.MergedAll(norm, cs[..i + 1], s);
      && (Outcome(env, m).artifacts != [] <==>
            FirstPlan(env, m).Ok? && AllPass(env, FirstPlan(env, m).value) && cs[i].causal == ObservedAssociation
            && Rests(env, m, Outcome(env, m)))
      && forall x | x in Outcome(env, m).artifacts :: x.artifactHash == after.Hash() && x.experiences == after.experiences
  {
    hide Shape, Rests, Outcome, FirstPlan, AllPass, Reconciler.MergedAll, Reconciler.Proposal;
    var m := Material(Reconciler.Proposals(norm, cs, s)[i], [cs[i]], sources);
    Reconciler.StepwiseFreezing(norm, cs, s, i, artifactId);
    FreezesIff(env, m);
    assert cs[i] in m.cs;
    OutcomeIsFinal(env, m);
    forall x | x in Outcome(env, m).artifacts
      ensures x.artifactHash == Reconciler.MergedAll(norm, cs[..i + 1], s).Hash()
      ensures x.experiences == Reconciler.MergedAll(norm, cs[..i + 1], s).experiences
    {
      OutcomeFreezes(env, m, x);
    }
  }

  lemma OutcomeFreezes(env: Env, m: Material, x: Artifact)
    requires m.Valid() && x in Outcome(env, m).artifacts
    ensures x.artifactHash == m.r.proposed && m.r.parent.OfSnapshot?
    ensures x.experiences == m.r.parent.experiences + AllReconciled(m.cs) && x.experienceIds == Ids(x.experiences)
  {
    hide Judge, BroadPlan, Practised, RunsOf, RunOf, DistinctRuns, ValidArtifact, Outcome;
    OutcomeIsFinal(env, m);
  }

  // --- Whole batches are confluent --------------------------------------------------------

  /** The revisions posted to a log, in order. */
  function RevisionsIn(log: seq<Event>): seq<Revision> {
    if log == [] then []
    else
      var ev := log[|log| - 1];
      RevisionsIn(log[..|log| - 1]) + if ev.RevisionReconciled? then [ev.revision] else []
  }

  predicate Precedes(rs: seq<Revision>, x: Revision, y: Revision) {
    exists p, q :: 0 <= p < q < |rs| && rs[p] == x && rs[q] == y
  }

  /** The list holds posted revisions only, in the order in which they were posted. */
  predicate KeepsOrder(xs: seq<Revision>, rs: seq<Revision>) {
    && (forall x | x in xs :: x in rs)
    && (forall a, c | 0 <= a < c < |xs| :: Precedes(rs, xs[a], xs[c]))
  }

  predicate OnePerId(rs: seq<Revision>) {
    forall x, y | x in rs && y in rs && x.id == y.id :: x == y
  }

  lemma PutKeepsOrder(xs: seq<Revision>, rs: seq<Revision>, r: Revision)
    requires KeepsOrder(xs, rs) && OnePerId(rs + [r])
    ensures KeepsOrder(Put(RevisionKey, xs, r), rs + [r])
  {
    var all, next := rs + [r], Put(RevisionKey, xs, r);
    assert all[|rs|] == r && forall p | 0 <= p < |rs| :: all[p] == rs[p];
    var k := Position(RevisionKey, xs, r.id);
    if k < |xs| {
      assert xs[k] in rs && xs[k] in all && r in all;
      assert next == xs;
    }
    forall a, c | 0 <= a < c < |next| ensures Precedes(all, next[a], next[c]) {
      if c < |xs| {
        var p, q :| 0 <= p < q < |rs| && rs[p] == xs[a] && rs[q] == xs[c];
        assert all[p] == xs[a] && all[q] == xs[c];
      } else {
        assert xs[a] in rs;
        var p :| 0 <= p < |rs| && rs[p] == xs[a];
        assert all[p] == xs[a];
      }
    }
  }

  /** The index of revisions keeps the order of the log. */
  lemma {:induction false} IndexKeepsOrder(log: seq<Event>)
    requires OnePerId(RevisionsIn(log))
    ensures KeepsOrder(InputsOf(log).revisions, RevisionsIn(log))
  {
    if log != [] {
      var n := |log| - 1;
      var front, ev := log[..n], log[n];
      assert forall x | x in RevisionsIn(front) :: x in RevisionsIn(log);
      IndexKeepsOrder(front);
      if ev.RevisionReconciled? {
        PutKeepsOrder(InputsOf(front).revisions, RevisionsIn(front), ev.revision);
      } else {
        assert RevisionsIn(log) == RevisionsIn(front) && InputsOf(log).revisions == InputsOf(front).revisions;
      }
    }
  }

  /** A proposal's id is cut out of its claim and its memory, and so determines it. */
  lemma ProposalsAreOnePerId(norm: Reconciler.Norm, cs: seq<Candidate>, s: Snapshot)
    ensures OnePerId(Reconciler.Proposals(norm, cs, s))
  {
    var rs := Reconciler.Proposals(norm, cs, s);
    forall x, y | x in rs && y in rs && x.id == y.id ensures x == y {
      var i: nat :| i < |rs| && rs[i] == x;
      var j: nat :| j < |rs| && rs[j] == y;
      SameIdSameProposal(norm, cs[i], Reconciler.MergedAll(norm, cs[..i], s), cs[j], Reconciler.MergedAll(norm, cs[..j], s));
    }
  }

  lemma SameIdSameProposal(norm: Reconciler.Norm, c: Candidate, s: Snapshot, d: Candidate, t: Snapshot)
    requires Reconciler.Proposal(norm, c, s).id == Reconciler.Proposal(norm, d, t).id
    ensures Reconciler.Proposal(norm, c, s) == Reconciler.Proposal(norm, d, t)
  {
    hide Reconciler.Merged, Reconciler.OperationFor;
    assert s.Hash() == t.Hash();
  }

  /** Claims and memory that the distiller made. */
  ghost predicate Learned(parse: Learning.Parser, cs: seq<Candidate>, s: Snapshot) {
    && (forall c | c in cs :: Learning.FromDistiller(parse, c) && Learning.FromDistiller(parse, AsReconciled(c)))
    && forall c | c in s.experiences :: Learning.FromDistiller(parse, c)
  }

  /** The claim of a later memory-changing revision is in no memory, and is no claim, of an earlier one. */
  lemma LaterClaimIsNew(
      parse: Learning.Parser, norm: Reconciler.Norm, cs: seq<Candidate>, s: Snapshot, i: nat, j: nat)
    requires Learned(parse, cs, s) && i < j < |cs|
    requires Reconciler.Proposals(norm, cs, s)[i].operation != NoChange
    requires Reconciler.Proposals(norm, cs, s)[j].operation != NoChange
    ensures cs[j].id !in Ids(Reconciler.MergedAll(norm, cs[..i], s).experiences) && cs[j].id != cs[i].id
  {
    hide Reconciler.MergedAll, Reconciler.Proposal, Reconciler.Contradicts, Reconciler.SignatureOf, Learning.FromDistiller;
    var before, memory := Reconciler.MergedAll(norm, cs[..i], s), Reconciler.MergedAll(norm, cs[..j], s);
    Reconciler.ProposalGrows(norm, cs[i], before);
    Reconciler.MergedOneMore(norm, cs, s, i);
    Reconciler.PrefixRemembers(norm, cs, s, i, j);
    Reconciler.PrefixRemembers(norm, cs, s, i + 1, j);
    Reconciler.ProposalMeaning(norm, cs[j], memory);
    Learning.MemoryIsFromDistiller(parse, norm, cs[..j], s);
    var after := before.experiences + [AsReconciled(cs[i])];
    assert after[|before.experiences|] == AsReconciled(cs[i]);
    assert cs[j] in cs;
    forall x | x in memory.experiences ensures x.id != cs[j].id {
      Learning.SameIdSameSignature(parse, norm, x, cs[j]);
    }
    forall k | 0 <= k < |before.experiences| ensures Ids(before.experiences)[k] != cs[j].id {
      assert before.experiences[k] in memory.experiences;
    }
    assert AsReconciled(cs[i]) in memory.experiences;
  }

  /** Where two ready revisions of the log stand in the batch. */
  lemma PlacesInBatch(
      log: seq<Event>, norm: Reconciler.Norm, cs: seq<Candidate>, s: Snapshot, a: nat, c: nat)
      returns (p: nat, q: nat)
    requires RevisionsIn(log) == Reconciler.Proposals(norm, cs, s)
    requires var i := InputsOf(log); a < c < |i.revisions| && Ready(i, a) && Ready(i, c)
    ensures p < q < |cs|
    ensures var i, rs := InputsOf(log), Reconciler.Proposals(norm, cs, s);
      && i.revisions[a] == rs[p] && i.revisions[c] == rs[q]
      && rs[p].operation != NoChange && rs[q].operation != NoChange
      && rs[p].candidateIds == [cs[p].id] && rs[q].candidateIds == [cs[q].id]
      && rs[p].parent == Reconciler.MergedAll(norm, cs[..p], s).Hash()
  {
    hide Reconciler.MergedAll, Reconciler.Proposal;
    var i, rs := InputsOf(log), Reconciler.Proposals(norm, cs, s);
    ProposalsAreOnePerId(norm, cs, s);
    IndexKeepsOrder(log);
    assert Precedes(rs, i.revisions[a], i.revisions[c]);
    p, q :| p < q < |rs| && rs[p] == i.revisions[a] && rs[q] == i.revisions[c];
    ChangesMemory(norm, cs[p], Reconciler.MergedAll(norm, cs[..p], s));
    ChangesMemory(norm, cs[q], Reconciler.MergedAll(norm, cs[..q], s));
    assert rs[p].candidateIds != [] && rs[q].candidateIds != [];
  }

  lemma ChangesMemory(norm: Reconciler.Norm, c: Candidate, s: Snapshot)
    ensures var r := Reconciler.Proposal(norm, c, s);
      && r.parent == s.Hash()
      && (r.operation == NoChange <==> r.candidateIds == [])
      && (r.operation != NoChange ==> r.candidateIds == [c.id])
  {
  }

  /** In the log of one learned batch no outcome holds a later revision's claim, and none is swallowed. */
  lemma BatchNeverOvertakes(
      env: Env, log: seq<Event>, parse: Learning.Parser, norm: Reconciler.Norm, cs: seq<Candidate>, s: Snapshot)
    requires RevisionsIn(log) == Reconciler.Proposals(norm, cs, s) && Learned(parse, cs, s)
    ensures NoOvertake(InputsOf(log), env) && NoneSwallowed(InputsOf(log), env)
  {
    hide HasMaterial, MaterialOf, Outcome, WillFreeze, Learned, Reconciler.MergedAll, Reconciler.Proposal, RevisionsIn;
    var i := InputsOf(log);
    forall a: nat, c: nat | a < c < |i.revisions| && Ready(i, a) && Ready(i, c)
      ensures forall x | x in Outcome(env, Mat(i, a)).artifacts :: !Holds(x, i.revisions[c].candidateIds)
      ensures !Swallows(i, env, a, c)
    {
      var p, q := PlacesInBatch(log, norm, cs, s, a, c);
      LaterClaimIsNew(parse, norm, cs, s, p, q);
      var m, id := Mat(i, a), cs[q].id;
      assert id in i.revisions[c].candidateIds;
      forall x | x in Outcome(env, m).artifacts ensures !Holds(x, i.revisions[c].candidateIds) {
        OutcomeFreezes(env, m, x);
        Freezing.IdsAppend(m.r.parent.experiences, m.cs);
        assert Ids(m.cs) == m.r.candidateIds == [cs[p].id];
      }
      WillFreezeIsGuarded(env, m);
    }
  }

  lemma WillFreezeIsGuarded(env: Env, m: Material)
    requires m.Valid()
    ensures WillFreeze(env, m) ==> env.active(m.r).snapshot.Hash() == m.r.parent
  {
    hide FirstPlan, AllPass;
  }

  /**
   Crash-restart confluence for a learned batch: whatever passes are killed, whatever practice answers
   and whatever memory is active, a schedule that comes to rest leaves every revision of
   the batch its uninterrupted history.
   */
  lemma BatchIsConfluent(
      env: Env, log: seq<Event>, kills: seq<nat>, c: nat,
      parse: Learning.Parser, lower: string -> string, norm: Reconciler.Norm, hs: seq<Handoff>, s: Snapshot)
    requires Learning.BroadBatch(parse, lower, norm, hs, s).Ok?
    requires RevisionsIn(log) == Learning.BroadBatch(parse, lower, norm, hs, s).value.reconciliation.revisions
    requires forall x | x in s.experiences :: Learning.FromDistiller(parse, x)
    requires Fresh(log) && c < |InputsOf(log).revisions| && Ready(InputsOf(log), c)
    requires Quiet(env, Passes(env, log, kills))
    ensures At(InputsOf(log), LedgerOf(Passes(env, log, kills)), c) == Outcome(env, Mat(InputsOf(log), c))
  {
    hide HasMaterial, MaterialOf, Outcome, Passes, Quiet, RevisionsIn, Fresh, Own, Reconciler.Proposal,
      Reconciler.MergedAll, NoOvertake, NoneSwallowed, Learning.Distillable, Learning.FromDistiller;
    var cs := Learning.BroadBatch(parse, lower, norm, hs, s).value.candidates;
    BatchIsLearned(parse, lower, norm, hs, s);
    BatchNeverOvertakes(env, log, parse, norm, cs, s);
    Confluence(env, log, kills, c);
  }

  lemma BatchIsLearned(parse: Learning.Parser, lower: string -> string, norm: Reconciler.Norm, hs: seq<Handoff>, s: Snapshot)
    requires Learning.BroadBatch(parse, lower, norm, hs, s).Ok?
    requires forall x | x in s.experiences :: Learning.FromDistiller(parse, x)
    ensures Learned(parse, Learning.BroadBatch(parse, lower, norm, hs, s).value.candidates, s)
  {
    hide Learning.FromDistiller, Learning.Distillable, Reconciler.Proposal;
    var r := Learning.BroadBatch(parse, lower, norm, hs, s).value;
    Learning.DistilledAllMembers(parse, lower, r.handoffs);
    forall c | c in r.candidates
      ensures Learning.FromDistiller(parse, c) && Learning.FromDistiller(parse, AsReconciled(c))
    {
      var h :| h in r.handoffs && c in Learning.Distilled(parse, lower, h);
      Learning.DistilledIsFromDistiller(parse, lower, h, c);
    }
  }
}
