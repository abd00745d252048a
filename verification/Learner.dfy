/**
 What the learner itself writes: the atomic batch of one handoff after another, each reconciled
 onto the memory that was active at the time. Every such log is confluent, however many batches
 it holds; only batches of several handoffs can break confluence, see module TwoBatches.
 */
module Learner {
  import opened Sequences
  import opened Records
  import opened Worker
  import opened Lifecycle
  import opened Histories
  import opened Restart
  import opened Overtaking
  import opened Freezing
  import opened Refinement
  import opened Guarantees
  import opened Pipeline
  import Reconciler
  import Learning

  datatype Rules = Rules(parse: Learning.Parser, lower: string -> string, norm: Reconciler.Norm)

  /** A handoff and the memory that was active when the learner met it. */
  datatype Lesson = Lesson(handoff: Handoff, memory: Snapshot)

  function Build(r: Rules, l: Lesson): Result<Learning.LearningBatch> {
    Learning.BuildAtomicBatch(r.parse, r.lower, r.norm, l.handoff, l.memory)
  }

  predicate AllBuild(r: Rules, ls: seq<Lesson>) {
    forall k | 0 <= k < |ls| :: Build(r, ls[k]).Ok?
  }

  /** The revisions of the batches, in the order in which the batches are posted. */
  function Taught(r: Rules, ls: seq<Lesson>): seq<Revision>
    requires AllBuild(r, ls)
  {
    if ls == [] then [] else Taught(r, ls[..|ls| - 1]) + Build(r, ls[|ls| - 1]).value.revisions
  }

  /** Cut out of a conclusion of this handoff. */
  predicate CutFrom(id: Id, h: Handoff) { id.ExperienceId? && id.handoffHash == OfHandoff(h) }

  predicate HoldsNone(s: Snapshot, h: Handoff) {
    forall x | x in s.experiences :: !CutFrom(x.id, h)
  }

  predicate OncePerHandoff(ls: seq<Lesson>) {
    forall j, k | 0 <= j < k < |ls| :: ls[j].handoff != ls[k].handoff
  }

  /** No memory holds a claim of a handoff whose batch is posted later. */
  predicate Causal(ls: seq<Lesson>) {
    forall j, k | 0 <= j < k < |ls| :: HoldsNone(ls[j].memory, ls[k].handoff)
  }

  ghost predicate Schooled(r: Rules, ls: seq<Lesson>) {
    && AllBuild(r, ls) && OncePerHandoff(ls)
    && forall k, x | 0 <= k < |ls| && x in ls[k].memory.experiences :: Learning.FromDistiller(r.parse, x)
  }

  // --- One batch --------------------------------------------------------------------------

  /** A batch holds the proposals for claims of its own handoff. */
  lemma BatchIs(r: Rules, l: Lesson)
    requires Build(r, l).Ok?
    ensures var b := Build(r, l).value;
      && b.revisions == Reconciler.Proposals(r.norm, b.candidates, l.memory)
      && b.final == Reconciler.MergedAll(r.norm, b.candidates, l.memory).Hash()
      && forall c | c in b.candidates :: CutFrom(c.id, l.handoff)
  {
    hide Learning.Distillable, Reconciler.Proposal, Reconciler.MergedAll;
    Learning.BroadBatchSucceedsIff(r.parse, r.lower, r.norm, [l.handoff], l.memory);
    var v := Learning.BroadBatch(r.parse, r.lower, r.norm, [l.handoff], l.memory).value;
    Learning.DistilledAllMembers(r.parse, r.lower, v.handoffs);
    forall c | c in v.candidates ensures CutFrom(c.id, l.handoff) {
      var h :| h in v.handoffs && c in Learning.Distilled(r.parse, r.lower, h);
      assert h == l.handoff;
      DistilledIsCut(r, h, c);
    }
  }

  lemma DistilledIsCut(r: Rules, h: Handoff, c: Candidate)
    requires Learning.Distillable(r.parse, r.lower, h) && c in Learning.Distilled(r.parse, r.lower, h)
    ensures CutFrom(c.id, h)
  {
    var cs := Learning.Distilled(r.parse, r.lower, h);
    var i: nat :| i < |cs| && cs[i] == c;
    assert Ok(cs[i]) == Learning.DistillOne(r.parse, r.lower, h, i);
  }

  /** Merging a handoff's claims puts no other handoff's claims into memory. */
  lemma {:induction false} MergingAddsOwn(norm: Reconciler.Norm, cs: seq<Candidate>, s: Snapshot, h: Handoff, other: Handoff)
    requires (forall c | c in cs :: CutFrom(c.id, h)) && h != other && HoldsNone(s, other)
    ensures HoldsNone(Reconciler.MergedAll(norm, cs, s), other)
  {
    if cs != [] {
      assert cs == cs[..|cs| - 1] + [cs[|cs| - 1]];
      MergingAddsOwn(norm, cs[..|cs| - 1], s, h, other);
    }
  }

  // --- Many batches -----------------------------------------------------------------------

  /** The revision is the proposal for claim `x` of lesson `j`. */
  predicate Proposes(r: Rules, ls: seq<Lesson>, v: Revision, j: nat, x: nat)
    requires AllBuild(r, ls)
  {
    j < |ls| && var rs := Build(r, ls[j]).value.revisions; x < |rs| && v == rs[x]
  }

  lemma {:induction false} PlaceOf(r: Rules, ls: seq<Lesson>, p: nat) returns (j: nat, x: nat)
    requires AllBuild(r, ls) && p < |Taught(r, ls)|
    ensures Proposes(r, ls, Taught(r, ls)[p], j, x)
  {
    hide Build;
    var n := |ls| - 1;
    var front := Taught(r, ls[..n]);
    if p < |front| { j, x := PlaceOf(r, ls[..n], p); } else { j, x := n, p - |front|; }
  }

  /** Posting order is the order of the batches, and of the claims within a batch. */
  lemma {:induction false} PlacesOf(r: Rules, ls: seq<Lesson>, p: nat, q: nat) returns (j: nat, x: nat, k: nat, y: nat)
    requires AllBuild(r, ls) && p < q < |Taught(r, ls)|
    ensures Proposes(r, ls, Taught(r, ls)[p], j, x) && Proposes(r, ls, Taught(r, ls)[q], k, y)
    ensures j < k || (j == k && x < y)
  {
    hide Build;
    var n := |ls| - 1;
    var front := Taught(r, ls[..n]);
    if q < |front| {
      j, x, k, y := PlacesOf(r, ls[..n], p, q);
    } else {
      k, y := n, q - |front|;
      if p < |front| { j, x := PlaceOf(r, ls[..n], p); } else { j, x := n, p - |front|; }
    }
  }

  lemma TaughtIsOnePerId(r: Rules, ls: seq<Lesson>)
    requires AllBuild(r, ls)
    ensures OnePerId(Taught(r, ls))
  {
    hide Build, Reconciler.Proposal, Reconciler.MergedAll, Taught;
    var rs := Taught(r, ls);
    forall v, w | v in rs && w in rs && v.id == w.id ensures v == w {
      var p: nat :| p < |rs| && rs[p] == v;
      var q: nat :| q < |rs| && rs[q] == w;
      var j, x := PlaceOf(r, ls, p);
      var k, y := PlaceOf(r, ls, q);
      BatchIs(r, ls[j]);
      BatchIs(r, ls[k]);
      var cs, ds := Build(r, ls[j]).value.candidates, Build(r, ls[k]).value.candidates;
      SameIdSameProposal(r.norm, cs[x], Reconciler.MergedAll(r.norm, cs[..x], ls[j].memory),
                         ds[y], Reconciler.MergedAll(r.norm, ds[..y], ls[k].memory));
    }
  }

  /** What an earlier revision starts from and adds never names the claim of a later one. */
  lemma LaterClaimIsForeign(r: Rules, ls: seq<Lesson>, v: Revision, j: nat, x: nat, w: Revision, k: nat, y: nat)
    requires Schooled(r, ls) && Causal(ls)
    requires Proposes(r, ls, v, j, x) && Proposes(r, ls, w, k, y) && (j < k || (j == k && x < y))
    requires v.operation != NoChange && w.operation != NoChange
    ensures |v.candidateIds| == |w.candidateIds| == 1 && v.parent.OfSnapshot?
    ensures w.candidateIds[0] !in Ids(v.parent.experiences) && w.candidateIds[0] != v.candidateIds[0]
  {
    hide Build, Reconciler.Proposal, Reconciler.MergedAll, Learning.FromDistiller, CutFrom;
    BatchIs(r, ls[j]);
    BatchIs(r, ls[k]);
    var cs, ds := Build(r, ls[j]).value.candidates, Build(r, ls[k]).value.candidates;
    var before := Reconciler.MergedAll(r.norm, cs[..x], ls[j].memory);
    ChangesMemory(r.norm, cs[x], before);
    ChangesMemory(r.norm, ds[y], Reconciler.MergedAll(r.norm, ds[..y], ls[k].memory));
    if j == k {
      LessonIsLearned(r, ls[j]);
      LaterClaimIsNew(r.parse, r.norm, cs, ls[j].memory, x, y);
    } else {
      MergingAddsOwn(r.norm, cs[..x], ls[j].memory, ls[j].handoff, ls[k].handoff);
      assert cs[x] in cs && ds[y] in ds;
      NotAmong(before, ls[k].handoff, ds[y].id);
      CutFromOne(cs[x].id, ls[j].handoff, ls[k].handoff);
    }
  }

  lemma CutFromOne(id: Id, h: Handoff, other: Handoff)
    requires CutFrom(id, h) && h != other
    ensures !CutFrom(id, other)
  {
  }

  lemma NotAmong(s: Snapshot, h: Handoff, id: Id)
    requires HoldsNone(s, h) && CutFrom(id, h)
    ensures id !in Ids(s.experiences)
  {
    forall k | 0 <= k < |s.experiences| ensures Ids(s.experiences)[k] != id {
      assert s.experiences[k] in s.experiences;
    }
  }

  lemma LessonIsLearned(r: Rules, l: Lesson)
    requires Build(r, l).Ok? && forall x | x in l.memory.experiences :: Learning.FromDistiller(r.parse, x)
    ensures Learned(r.parse, Build(r, l).value.candidates, l.memory)
  {
    hide Learned, Learning.BroadBatch, Learning.FromDistiller;
    BatchIsLearned(r.parse, r.lower, r.norm, [l.handoff], l.memory);
  }

  /** In a log of the learner no outcome holds a later revision's claim, and none is swallowed. */
  lemma LearnerNeverOvertakes(env: Env, log: seq<Event>, r: Rules, ls: seq<Lesson>)
    requires Schooled(r, ls) && Causal(ls) && RevisionsIn(log) == Taught(r, ls)
    ensures NoOvertake(InputsOf(log), env) && NoneSwallowed(InputsOf(log), env)
  {
    hide HasMaterial, MaterialOf, Outcome, WillFreeze, Causal, OncePerHandoff, Learning.FromDistiller, RevisionsIn, Taught,
      Build, Proposes;
    var i, rs := InputsOf(log), Taught(r, ls);
    TaughtIsOnePerId(r, ls);
    IndexKeepsOrder(log);
    forall a: nat, c: nat | a < c < |i.revisions| && Ready(i, a) && Ready(i, c)
      ensures forall x | x in Outcome(env, Mat(i, a)).artifacts :: !Holds(x, i.revisions[c].candidateIds)
      ensures !Swallows(i, env, a, c)
    {
      assert Precedes(rs, i.revisions[a], i.revisions[c]);
      var p, q :| 0 <= p < q < |rs| && rs[p] == i.revisions[a] && rs[q] == i.revisions[c];
      var j, x, k, y := PlacesOf(r, ls, p, q);
      ReadyChangesMemory(r, ls, i, a, j, x);
      ReadyChangesMemory(r, ls, i, c, k, y);
      LaterClaimIsForeign(r, ls, i.revisions[a], j, x, i.revisions[c], k, y);
      ForeignIsNotHeld(env, i, a, c);
    }
  }

  lemma ReadyChangesMemory(r: Rules, ls: seq<Lesson>, i: Inputs, a: nat, j: nat, x: nat)
    requires AllBuild(r, ls) && a < |i.revisions| && Ready(i, a) && Proposes(r, ls, i.revisions[a], j, x)
    ensures i.revisions[a].operation != NoChange
  {
    hide Build, Reconciler.Proposal, Reconciler.MergedAll, MaterialOf;
    BatchIs(r, ls[j]);
    var cs := Build(r, ls[j]).value.candidates;
    ChangesMemory(r.norm, cs[x], Reconciler.MergedAll(r.norm, cs[..x], ls[j].memory));
  }

  /** A claim that is neither an earlier revision's nor in its memory is in nothing it freezes. */
  lemma ForeignIsNotHeld(env: Env, i: Inputs, a: nat, c: nat)
    requires a < c < |i.revisions| && Ready(i, a) && Ready(i, c)
    requires |i.revisions[a].candidateIds| == |i.revisions[c].candidateIds| == 1 && i.revisions[a].parent.OfSnapshot?
    requires i.revisions[c].candidateIds[0] !in Ids(i.revisions[a].parent.experiences)
    requires i.revisions[c].candidateIds[0] != i.revisions[a].candidateIds[0]
    ensures forall x | x in Outcome(env, Mat(i, a)).artifacts :: !Holds(x, i.revisions[c].candidateIds)
    ensures !Swallows(i, env, a, c)
  {
    hide HasMaterial, MaterialOf, Outcome, WillFreeze;
    var m, id := Mat(i, a), i.revisions[c].candidateIds[0];
    assert id in i.revisions[c].candidateIds;
    forall x | x in Outcome(env, m).artifacts ensures !Holds(x, i.revisions[c].candidateIds) {
      OutcomeFreezes(env, m, x);
      Freezing.IdsAppend(m.r.parent.experiences, m.cs);
    }
    WillFreezeIsGuarded(env, m);
  }

  /**
   Crash-restart confluence for every log of the learner: whatever passes are killed, whatever
   practice answers and whatever memory is active, a schedule that comes to rest leaves every
   revision of every batch its uninterrupted history.
   */
  lemma LearnerLogsAreConfluent(env: Env, log: seq<Event>, kills: seq<nat>, c: nat, r: Rules, ls: seq<Lesson>)
    requires Schooled(r, ls) && Causal(ls) && RevisionsIn(log) == Taught(r, ls)
    requires Fresh(log) && c < |InputsOf(log).revisions| && Ready(InputsOf(log), c)
    requires Quiet(env, Passes(env, log, kills))
    ensures At(InputsOf(log), LedgerOf(Passes(env, log, kills)), c) == Outcome(env, Mat(InputsOf(log), c))
  {
    hide HasMaterial, MaterialOf, Outcome, Passes, Quiet, RevisionsIn, Fresh, Own, NoOvertake, NoneSwallowed,
      Schooled, Causal, Taught, Build;
    LearnerNeverOvertakes(env, log, r, ls);
    Confluence(env, log, kills, c);
  }

  // --- Where memories come from -----------------------------------------------------------

  /** The memory is what the batch of lesson `k` leaves after so many of its claims. */
  predicate GrewFrom(r: Rules, ls: seq<Lesson>, s: Snapshot, k: nat, count: nat)
    requires AllBuild(r, ls)
  {
    k < |ls| && var cs := Build(r, ls[k]).value.candidates;
      count <= |cs| && s == Reconciler.MergedAll(r.norm, cs[..count], ls[k].memory)
  }

  /** Each memory was frozen out of an earlier batch, or holds no claim of the log at all. */
  ghost predicate Grown(r: Rules, ls: seq<Lesson>)
    requires AllBuild(r, ls)
  {
    forall j: nat | j < |ls| ::
      || (exists k: nat, count: nat | k < j :: GrewFrom(r, ls, ls[j].memory, k, count))
      || (forall k | 0 <= k < |ls| :: HoldsNone(ls[j].memory, ls[k].handoff))
  }

  /** Memory that is only ever frozen out of earlier batches never holds a later handoff's claim. */
  lemma GrownIsCausal(r: Rules, ls: seq<Lesson>)
    requires AllBuild(r, ls) && OncePerHandoff(ls) && Grown(r, ls)
    ensures Causal(ls)
  {
    hide Build, HoldsNone;
    forall j, k | 0 <= j < k < |ls| ensures HoldsNone(ls[j].memory, ls[k].handoff) {
      MemoryIsOlder(r, ls, j, k);
    }
  }

  lemma {:induction false} MemoryIsOlder(r: Rules, ls: seq<Lesson>, j: nat, k: nat)
    requires AllBuild(r, ls) && OncePerHandoff(ls) && Grown(r, ls) && j <= k < |ls|
    ensures HoldsNone(ls[j].memory, ls[k].handoff)
    decreases j
  {
    hide Build, HoldsNone, CutFrom, Reconciler.MergedAll;
    if m: nat, count: nat :| m < j && GrewFrom(r, ls, ls[j].memory, m, count) {
      MemoryIsOlder(r, ls, m, k);
      BatchIs(r, ls[m]);
      var cs := Build(r, ls[m]).value.candidates;
      MergingAddsOwn(r.norm, cs[..count], ls[m].memory, ls[m].handoff, ls[k].handoff);
    }
  }
}
