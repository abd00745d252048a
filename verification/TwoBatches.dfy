/**
 A log on which crash-restart confluence fails: two broad batches that share a handoff, both
 reconciled onto the same memory.

 The first batch learns from one handoff, the second from that handoff and another one that comes
 before it. The shared claim is thus proposed twice, onto the empty memory and onto the memory
 that holds the other claim. Every revision of the log is a proposal of its batch.
 */
module TwoBatches {
  import opened Sequences
  import opened Records
  import opened Evaluator
  import opened Curriculum
  import opened Worker
  import opened Lifecycle
  import opened Refinement
  import opened Guarantees
  import opened Histories
  import opened Restart
  import opened Overtaking
  import opened Smoothness
  import opened Freezing
  import opened Pipeline
  import opened Reconciler
  import Learning
  import Normalization
  import Ordering

  // --- What is learned --------------------------------------------------------------------

  const EMPTY := Snapshot("t", "d", "b", [])

  /** Structured conclusions: a condition, an action and an expected outcome. */
  const SAYS_X := "{" + "\"condition\":\"x\"," + "\"action\":\"a\"," + "\"expected_outcome\":" + "\"o\"}"
  const SAYS_Y := "{" + "\"condition\":\"y\"," + "\"action\":\"a\"," + "\"expected_outcome\":" + "\"o\"}"

  function Reporting(id: string, conclusion: string): Handoff {
    Handoff(id, "t", "d", "s", SameSession, Pass, [Plain("a")], ["p"], ["e"], OfText("r"), OfText("o"),
            [conclusion], [], EMPTY.Hash(), true, 0)
  }

  const AUTHOR := Reporting("h", SAYS_X)
  const OTHER := Reporting("g", SAYS_Y)

  function Said(condition: string): Learning.Claim {
    Learning.Claim(Procedure, ObservedAssociation, condition, "a", "o", None, [], "w", [], 0.5)
  }

  function Read(text: string, h: Handoff): Result<Learning.Claim> {
    if text == SAYS_X then Ok(Said("x")) else if text == SAYS_Y then Ok(Said("y")) else Raised
  }

  function Lower(text: string): string { text }

  /** All texts here are in lower case. */
  const NORM: Norm := Normalizing(c => [c])

  const CLAIM := Learning.CandidateOf(AUTHOR, 0, SAYS_X, Said("x"))
  const RIVAL := Learning.CandidateOf(OTHER, 0, SAYS_Y, Said("y"))

  function Holding(memory: seq<Candidate>): Snapshot { EMPTY.(experiences := memory) }

  /** The claim added to a memory that neither knows nor contradicts it. */
  function Onto(c: Candidate, memory: seq<Candidate>): Revision {
    var parent, proposed := Holding(memory).Hash(), Holding(memory + [AsReconciled(c)]).Hash();
    Revision(RevisionId(OfCandidate(c), parent, proposed, Add), "t", "d", "b", parent, [c.id], Add, None, [], SCOPED, proposed)
  }

  function Batch(hs: seq<Handoff>): Result<Learning.BroadResult> { Learning.BroadBatch(Read, Lower, NORM, hs, EMPTY) }

  lemma TextsDiffer() ensures SAYS_X != SAYS_Y && SAYS_X != "" && SAYS_Y != "" {
    assert SAYS_X[..17][14] == 'x' && SAYS_Y[..17][14] == 'y';
  }

  lemma NothingRestricted(condition: string)
    requires |condition| == 1
    ensures Learning.Bounded(Lower, Said(condition))
  {
    var text := Learning.ClaimText(Said(condition));
    assert |text| == 10;
    forall phrase | phrase in Learning.RESTRICTED ensures !Learning.Mentions(Lower(text), phrase) {
      assert |phrase| > 10;
    }
  }

  lemma ReportIsDistilled(h: Handoff)
    requires h == AUTHOR || h == OTHER
    ensures Learning.Distillable(Read, Lower, h)
    ensures Learning.Distilled(Read, Lower, h) == [if h == AUTHOR then CLAIM else RIVAL]
    ensures ValidCandidate(CLAIM) && ValidCandidate(RIVAL)
  {
    hide Learning.Bounded;
    TextsDiffer();
    NothingRestricted("x");
    NothingRestricted("y");
    assert h.conclusions == [h.conclusions[0]];
    assert Learning.DistillOne(Read, Lower, h, 0) == Ok(if h == AUTHOR then CLAIM else RIVAL);
  }

  // --- What is proposed -------------------------------------------------------------------

  lemma WordIsNormal(w: string)
    requires |w| == 1 && !Normalization.Space(w[0])
    ensures NORM(w) == w
  {
    assert w[1..] == "" && w == [w[0]] + "";
    assert Normalization.Lower(c => [c], w) == w;
    Normalization.SplitWord(w, "");
    Normalization.NothingToSplit();
    assert w + "" == w;
  }

  lemma ClaimsDiffer()
    ensures !Contradicts(NORM, AsReconciled(RIVAL), CLAIM)
    ensures SignatureOf(NORM, AsReconciled(RIVAL)) != SignatureOf(NORM, CLAIM)
  {
    WordIsNormal("x");
    WordIsNormal("y");
  }

  lemma OntoIsProposed(c: Candidate, memory: seq<Candidate>)
    requires (memory == [] && (c == CLAIM || c == RIVAL)) || (memory == [AsReconciled(RIVAL)] && c == CLAIM)
    ensures Proposal(NORM, c, Holding(memory)) == Onto(c, memory)
    ensures Merged(NORM, c, Holding(memory)) == Holding(memory + [AsReconciled(c)])
  {
    hide SignatureOf, Contradicts;
    ClaimsDiffer();
    assert Conflicts(NORM, memory, c) == [] by {
      if memory != [] { assert memory[1..] == []; }
    }
    assert Ids([]) == [];
  }

  lemma AloneIsProposed()
    ensures Proposals(NORM, [CLAIM], EMPTY) == [Onto(CLAIM, [])]
  {
    hide Proposal, Merged;
    OntoIsProposed(CLAIM, []);
    assert [CLAIM][..0] == [] && MergedAll(NORM, [], EMPTY) == EMPTY == Holding([]);
  }

  lemma BothAreProposed()
    ensures Proposals(NORM, [RIVAL, CLAIM], EMPTY) == [Onto(RIVAL, []), Onto(CLAIM, [AsReconciled(RIVAL)])]
  {
    hide Proposal, Merged;
    OntoIsProposed(RIVAL, []);
    OntoIsProposed(CLAIM, [AsReconciled(RIVAL)]);
    var cs := [RIVAL, CLAIM];
    assert cs[..0] == [] && MergedAll(NORM, [], EMPTY) == EMPTY == Holding([]);
    MergedOneMore(NORM, cs, EMPTY, 0);
    assert [] + [AsReconciled(RIVAL)] == [AsReconciled(RIVAL)];
  }

  lemma InOrder()
    ensures Ordering.Sorted(Learning.IdKey, [AUTHOR]) == [AUTHOR]
    ensures Ordering.Sorted(Learning.IdKey, [OTHER, AUTHOR]) == [OTHER, AUTHOR]
  {
    assert [AUTHOR][1..] == [] && Ordering.Sorted(Learning.IdKey, []) == [];
    assert Ordering.Sorted(Learning.IdKey, [AUTHOR]) == [AUTHOR];
    assert [OTHER, AUTHOR][1..] == [AUTHOR];
    assert Learning.IdKey(OTHER)[0] == 'g' as nat && Learning.IdKey(AUTHOR)[0] == 'h' as nat;
    assert Ordering.AtMost(Learning.IdKey(OTHER), Learning.IdKey(AUTHOR));
  }

  lemma LearnsAlone()
    ensures Batch([AUTHOR]).Ok? && Batch([AUTHOR]).value.candidates == [CLAIM]
    ensures Batch([AUTHOR]).value.reconciliation.revisions == [Onto(CLAIM, [])]
  {
    hide Learning.Distillable, Proposal, MergedAll, Learning.DistillOne;
    ReportIsDistilled(AUTHOR);
    Learning.BroadBatchSucceedsIff(Read, Lower, NORM, [AUTHOR], EMPTY);
    InOrder();
    assert Learning.DistilledAll(Read, Lower, [AUTHOR]) == [CLAIM] by { assert [AUTHOR][1..] == []; }
    AloneIsProposed();
  }

  lemma LearnsBoth()
    ensures Batch([OTHER, AUTHOR]).Ok? && Batch([OTHER, AUTHOR]).value.candidates == [RIVAL, CLAIM]
    ensures Batch([OTHER, AUTHOR]).value.reconciliation.revisions == [Onto(RIVAL, []), Onto(CLAIM, [AsReconciled(RIVAL)])]
  {
    hide Learning.Distillable, Proposal, MergedAll, Learning.DistillOne;
    ReportIsDistilled(AUTHOR);
    ReportIsDistilled(OTHER);
    Learning.BroadBatchSucceedsIff(Read, Lower, NORM, [OTHER, AUTHOR], EMPTY);
    InOrder();
    assert Learning.DistilledAll(Read, Lower, [AUTHOR]) == [CLAIM] by { assert [AUTHOR][1..] == []; }
    assert [OTHER, AUTHOR][1..] == [AUTHOR];
    assert Learning.DistilledAll(Read, Lower, [OTHER, AUTHOR]) == [RIVAL] + [CLAIM];
    BothAreProposed();
  }

  // --- What is posted ---------------------------------------------------------------------

  /** The two batches, posted one after the other; what the second one repeats is posted once. */
  function Posted(): seq<Event> {
    [HandoffReady(AUTHOR), CandidateDistilled(CLAIM), RevisionReconciled(Onto(CLAIM, [])),
     HandoffReady(OTHER), CandidateDistilled(RIVAL), RevisionReconciled(Onto(RIVAL, [])),
     RevisionReconciled(Onto(CLAIM, [AsReconciled(RIVAL)]))]
  }

  /** Every revision of the log is a proposal of one of the two batches. */
  lemma PostedIsLearned()
    ensures Batch([AUTHOR]).Ok? && Batch([OTHER, AUTHOR]).Ok?
    ensures RevisionsIn(Posted())
      == Batch([AUTHOR]).value.reconciliation.revisions + Batch([OTHER, AUTHOR]).value.reconciliation.revisions
    ensures RevisionsIn(Posted()[..3]) == Batch([AUTHOR]).value.reconciliation.revisions
  {
    hide Batch, Onto;
    LearnsAlone();
    LearnsBoth();
    var log := Posted();
    assert RevisionsIn(log[..0]) == [];
    forall n | 0 <= n < 7 ensures log[..n + 1][..n] == log[..n] {}
    assert RevisionsIn(log[..1]) == [] && RevisionsIn(log[..2]) == [];
    assert RevisionsIn(log[..3]) == [Onto(CLAIM, [])];
    assert RevisionsIn(log[..4]) == [Onto(CLAIM, [])] && RevisionsIn(log[..5]) == [Onto(CLAIM, [])];
    assert RevisionsIn(log[..6]) == [Onto(CLAIM, []), Onto(RIVAL, [])];
    assert log == log[..7];
  }

  /** The empty memory is active, and every practice passes. */
  function PassingWorld(): Env {
    Env((p: Plan, t: Task) => Some(AUTHOR.(tenant := p.tenant, domain := p.domain, parentMemory := p.memory,
                               actionRefs := [PracticeBinding(p.id, t.id)])),
        (r: Revision) => Active(EMPTY, Named("genesis"), EMPTY.Hash()),
        OfText("schema"), "v1", (c: Candidate) => Words("h", "{}"))
  }

  const ALONE := Inputs([AUTHOR], [CLAIM], [Onto(CLAIM, [])])
  const BOTH := Inputs([AUTHOR, OTHER], [CLAIM, RIVAL],
                       [Onto(CLAIM, []), Onto(RIVAL, []), Onto(CLAIM, [AsReconciled(RIVAL)])])

  lemma OneMore(log: seq<Event>, n: nat)
    requires n < |log|
    ensures InputsOf(log[..n + 1]) == IndexInput(InputsOf(log[..n]), log[n])
    ensures LedgerOf(log[..n + 1]) == Index(LedgerOf(log[..n]), log[n])
  {
    assert log[..n + 1][..n] == log[..n];
  }

  lemma FirstBatchInputs()
    ensures InputsOf(Posted()[..3]) == ALONE && LedgerOf(Posted()[..3]) == NO_RECORDS
  {
    var log := Posted();
    assert InputsOf(log[..0]) == Inputs([], [], []) && LedgerOf(log[..0]) == NO_RECORDS;
    hide InputsOf, LedgerOf;
    OneMore(log, 0);
    OneMore(log, 1);
    OneMore(log, 2);
  }

  lemma PostedInputs()
    ensures InputsOf(Posted()) == BOTH && LedgerOf(Posted()) == NO_RECORDS
  {
    hide InputsOf, LedgerOf;
    var log := Posted();
    FirstBatchInputs();
    OneMore(log, 3);
    OneMore(log, 4);
    assert InputsOf(log[..5]) == ALONE.(handoffs := [AUTHOR, OTHER], candidates := [CLAIM, RIVAL]);
    OneMore(log, 5);
    OneMore(log, 6);
    assert log == log[..7];
  }

  lemma PostedIsFresh()
    ensures Fresh(Posted()[..3]) && Fresh(Posted())
  {
    hide ValidHandoff, ValidCandidate, Posted, LedgerOf, InputsOf;
    FirstBatchInputs();
    PostedInputs();
    ReportIsDistilled(AUTHOR);
    ReportIsValid(AUTHOR);
    ReportIsValid(OTHER);
  }

  lemma ReportIsValid(h: Handoff)
    requires h == AUTHOR || h == OTHER
    ensures ValidHandoff(h)
  {
    assert !Blank("e") by { assert 'e' in "e"; }
    assert !Blank("p") by { assert 'p' in "p"; }
    assert !Blank("a") by { assert 'a' in "a"; }
    assert h.conclusions[0][0] == '{' && !Normalization.Space('{');
    assert h.conclusions[0][0] in h.conclusions[0];
  }

  // --- What becomes of it -----------------------------------------------------------------

  /** A claim and the handoff it was distilled from. */
  predicate Ours(c: Candidate, h: Handoff) { (c == CLAIM && h == AUTHOR) || (c == RIVAL && h == OTHER) }

  lemma OursIsSmooth(m: Material, c: Candidate, h: Handoff, memory: seq<Candidate>)
    requires Ours(c, h) && m == Material(Onto(c, memory), [c], [h])
    ensures m.Valid() && SmoothFor(PassingWorld(), m)
  {
    hide Evaluable, Extensible, Onto;
    OursIsValid(m, c, h, memory);
    assert Fixtures([c]) == ["e"] + Fixtures([]);
    OursIsEvaluable(m, c, h, memory);
    OursExtends(m, c, h, memory);
  }

  lemma OursIsValid(m: Material, c: Candidate, h: Handoff, memory: seq<Candidate>)
    requires m == Material(Onto(c, memory), [c], [h])
    ensures m.Valid()
  {
  }

  lemma OursIsEvaluable(m: Material, c: Candidate, h: Handoff, memory: seq<Candidate>)
    requires Ours(c, h) && m == Material(Onto(c, memory), [c], [h])
    ensures m.Valid() && Evaluable(m.r, m.cs, m.Bootstrap(), m.sources)
  {
    assert Keeper([h], h.id) == Some(h);
    RelevantIsAll(m);
  }

  lemma OursExtends(m: Material, c: Candidate, h: Handoff, memory: seq<Candidate>)
    requires Ours(c, h) && m == Material(Onto(c, memory), [c], [h])
    ensures Extensible(PassingWorld(), m)
  {
    assert [] + AllReconciled([c]) == [AsReconciled(c)];
  }

  /** Practice of a claim onto the empty memory passes, and memory then holds the claim. */
  lemma OursWillFreeze(m: Material, c: Candidate, h: Handoff)
    requires Ours(c, h) && m == Material(Onto(c, []), [c], [h])
    ensures m.Valid() && WillFreeze(PassingWorld(), m)
  {
    hide Evaluate, BroadPlan, SmoothFor;
    var env := PassingWorld();
    OursIsSmooth(m, c, h, []);
    JudgeOk(env, m, m.Bootstrap());
    PlanOk(env, m, Judge(m, m.Bootstrap()).value);
    assert [] + AllReconciled([c]) == [] + [AsReconciled(c)];
  }

  /** The material of a revision of one claim is the claim and its handoff. */
  lemma OneClaimsMaterial(i: Inputs, r: Revision, c: Candidate, h: Handoff)
    requires r.operation != NoChange && r.candidateIds == [c.id] && c.handoffId == h.id
    requires Known(CandidateKey, i.candidates, c) && Known(HandoffKey, i.handoffs, h)
    ensures HasMaterial(i, r) && MaterialOf(i, r) == Material(r, [c], [h])
  {
    assert [c.id][1..] == [] && FindCandidates(i.candidates, []) == [];
    assert FindCandidates(i.candidates, [c.id]) == [c];
    assert HandoffIds([c]) == [h.id];
    assert Dedupe([h.id]) == [h.id] by { DedupeDistinct([h.id]); }
    assert Sources(i.handoffs, [c]) == [h];
  }

  lemma ClaimsAreKnown()
    ensures Known(CandidateKey, ALONE.candidates, CLAIM) && Known(HandoffKey, ALONE.handoffs, AUTHOR)
    ensures Known(CandidateKey, BOTH.candidates, CLAIM) && Known(HandoffKey, BOTH.handoffs, AUTHOR)
    ensures Known(CandidateKey, BOTH.candidates, RIVAL) && Known(HandoffKey, BOTH.handoffs, OTHER)
  {
    assert CLAIM.id != RIVAL.id && AUTHOR.id != OTHER.id;
  }

  lemma MaterialIs(i: Inputs, a: nat, c: Candidate, h: Handoff, memory: seq<Candidate>)
    requires a < |i.revisions| && i.revisions[a] == Onto(c, memory)
    requires Ours(c, h) && Known(CandidateKey, i.candidates, c) && Known(HandoffKey, i.handoffs, h)
    ensures Ready(i, a) && Mat(i, a) == Material(Onto(c, memory), [c], [h])
  {
    hide Known, HasMaterial, MaterialOf;
    OneClaimsMaterial(i, Onto(c, memory), c, h);
  }

  lemma BothMaterials()
    ensures Ready(BOTH, 0) && Mat(BOTH, 0) == Material(Onto(CLAIM, []), [CLAIM], [AUTHOR])
    ensures Ready(BOTH, 1) && Mat(BOTH, 1) == Material(Onto(RIVAL, []), [RIVAL], [OTHER])
    ensures Ready(BOTH, 2) && Mat(BOTH, 2) == Material(Onto(CLAIM, [AsReconciled(RIVAL)]), [CLAIM], [AUTHOR])
  {
    hide Onto, HasMaterial, MaterialOf, Known;
    ClaimsAreKnown();
    MaterialIs(BOTH, 0, CLAIM, AUTHOR, []);
    MaterialIs(BOTH, 1, RIVAL, OTHER, []);
    MaterialIs(BOTH, 2, CLAIM, AUTHOR, [AsReconciled(RIVAL)]);
  }

  lemma BothAreSturdy()
    ensures Sturdy(BOTH, PassingWorld())
  {
    hide HasMaterial, MaterialOf, SmoothFor, Onto;
    BothMaterials();
    OursIsSmooth(Mat(BOTH, 0), CLAIM, AUTHOR, []);
    OursIsSmooth(Mat(BOTH, 1), RIVAL, OTHER, []);
    OursIsSmooth(Mat(BOTH, 2), CLAIM, AUTHOR, [AsReconciled(RIVAL)]);
    SmoothIsSturdy(BOTH, PassingWorld());
  }

  lemma FirstSwallowsLast()
    ensures Ready(BOTH, 0) && Ready(BOTH, 2) && Swallows(BOTH, PassingWorld(), 0, 2)
  {
    hide HasMaterial, MaterialOf, WillFreeze;
    BothMaterials();
    OursWillFreeze(Mat(BOTH, 0), CLAIM, AUTHOR);
  }

  /** Confluence fails on the log of the two batches: the last revision is overtaken by the first. */
  lemma ConfluenceFails()
    ensures Fresh(Posted()) && InputsOf(Posted()) == BOTH && Ready(BOTH, 2)
    ensures exists kills :: !Agrees(PassingWorld(), Posted(), kills, 2)
  {
    hide HasMaterial, MaterialOf, Sturdy, Swallows, Fresh, Posted, Outcome, Own, Passes, Quiet, Holds;
    var env, log := PassingWorld(), Posted();
    PostedInputs();
    PostedIsFresh();
    BothAreSturdy();
    FirstSwallowsLast();
    SwallowsIsHolding(BOTH, env, 0, 2);
    var x :| x in Outcome(env, Mat(BOTH, 0)).artifacts && Holds(x, BOTH.revisions[2].candidateIds);
    var kills := Overtakes(env, log, 0, 2, x);
    assert !Agrees(env, log, kills, 2);
  }

  /** Without the second batch nothing is in the way: two passes freeze the claim. */
  lemma FirstAloneIsFrozen()
    ensures var log, env := Posted()[..3], PassingWorld();
      && Fresh(log) && InputsOf(log) == ALONE && Ready(ALONE, 0)
      && Quiet(env, FullPass(env, FullPass(env, log)))
      && At(ALONE, LedgerOf(FullPass(env, FullPass(env, log))), 0).artifacts != []
  {
    hide HasMaterial, MaterialOf, SmoothFor, Fresh, FullPass, Quiet, Outcome, Own, WillFreeze, Onto, Known;
    var log, env := Posted()[..3], PassingWorld();
    FirstBatchInputs();
    PostedIsFresh();
    ClaimsAreKnown();
    MaterialIs(ALONE, 0, CLAIM, AUTHOR, []);
    OursIsSmooth(Mat(ALONE, 0), CLAIM, AUTHOR, []);
    SmoothIsSturdy(ALONE, env);
    OursWillFreeze(Mat(ALONE, 0), CLAIM, AUTHOR);
    FreezesIff(env, Mat(ALONE, 0));
    UninterruptedFinishes(env, log);
  }
}
