/**
 Distilling a handoff's conclusions into candidate claims, and merging the claims of a whole
 batch of handoffs in a deterministic order.
 */
module Learning {
  import opened Sequences
  import opened Records
  import opened Reconciler
  import Ordering
  import Normalization

  /** What a conclusion claims, as the parser reads it. */
  datatype Claim = Claim(
    kind: Kind, causal: CausalStatus, condition: string, action: string, outcome: string, mechanism: Option<string>,
    counterexampleRefs: seq<string>, applicability: string, invalidation: seq<string>, uncertainty: real)

  /** Parsing depends on the conclusion and its handoff only. */
  type Parser = (string, Handoff) -> Result<Claim>

  function CandidateOf(h: Handoff, index: nat, conclusion: string, claim: Claim): Candidate {
    Candidate(
      ExperienceId(OfHandoff(h), index, conclusion), h.id, h.tenant, h.domain, claim.kind, claim.causal,
      claim.condition, claim.action, claim.outcome, claim.mechanism, h.evidenceRefs, claim.counterexampleRefs,
      claim.applicability, claim.invalidation, claim.uncertainty, h.parentMemory, Proposed)
  }

  const RESTRICTED := [
    "change permission", "modify permission", "bypass safety", "disable safety", "change policy",
    "modify policy", "external action", "send externally", "execute trade", "place order"]

  predicate Mentions(text: string, phrase: string) {
    exists i | 0 <= i <= |text| :: phrase <= text[i..]
  }

  /** The text that is searched; how a missing mechanism prints does not matter, no phrase overlaps it. */
  function ClaimText(claim: Claim): string {
    claim.condition + " " + claim.action + " " + claim.outcome + " "
    + (if claim.mechanism.Some? then claim.mechanism.value else "None")
  }

  /** A claim may not talk about changing policy, permissions, safety or external actions. */
  predicate Bounded(lower: string -> string, claim: Claim) {
    forall phrase | phrase in RESTRICTED :: !Mentions(lower(ClaimText(claim)), phrase)
  }

  function DistillOne(parse: Parser, lower: string -> string, h: Handoff, index: nat): Result<Candidate>
    requires index < |h.conclusions|
  {
    match parse(h.conclusions[index], h)
    case Raised => Raised
    case Ok(claim) =>
      if !Bounded(lower, claim) then Raised
      else
        var c := CandidateOf(h, index, h.conclusions[index], claim);
        if ValidCandidate(c) then Ok(c) else Raised
  }

  predicate Distillable(parse: Parser, lower: string -> string, h: Handoff) {
    forall i | 0 <= i < |h.conclusions| :: DistillOne(parse, lower, h, i).Ok?
  }

  function Distilled(parse: Parser, lower: string -> string, h: Handoff): (cs: seq<Candidate>)
    requires Distillable(parse, lower, h)
    ensures |cs| == |h.conclusions| && forall i | 0 <= i < |cs| :: Ok(cs[i]) == DistillOne(parse, lower, h, i)
  {
    seq(|h.conclusions|, i requires 0 <= i < |h.conclusions| => DistillOne(parse, lower, h, i).value)
  }

  /** One candidate for each conclusion, in order; the first bad conclusion fails the whole handoff. */
  method Distill(parse: Parser, lower: string -> string, h: Handoff) returns (r: Result<seq<Candidate>>)
    ensures r.Ok? <==> Distillable(parse, lower, h)
    ensures r.Ok? ==> r.value == Distilled(parse, lower, h)
  {
    hide DistillOne;
    var candidates: seq<Candidate> := [];
    for i := 0 to |h.conclusions|
      invariant |candidates| == i
      invariant forall k | 0 <= k < i :: DistillOne(parse, lower, h, k) == Ok(candidates[k])
    {
      var c := DistillOne(parse, lower, h, i);
      if c.Raised? { return Raised; }
      candidates := candidates + [c.value];
    }
    return Ok(candidates);
  }

  // --- The learning boundary --------------------------------------------------------------

  /** Some restricted phrase occurs in the text. */
  predicate Restricted(text: string) { exists phrase | phrase in RESTRICTED :: Mentions(text, phrase) }

  lemma MentionsWithin(a: string, text: string, b: string, phrase: string)
    requires Mentions(text, phrase)
    ensures Mentions(a + text + b, phrase)
  {
    var i :| 0 <= i <= |text| && phrase <= text[i..];
    assert (a + text + b)[|a| + i..] == text[i..] + b;
  }

  lemma RestrictedWithin(a: string, text: string, b: string)
    requires Restricted(text)
    ensures Restricted(a + text + b)
  {
    hide Mentions;
    var phrase :| phrase in RESTRICTED && Mentions(text, phrase);
    MentionsWithin(a, text, b, phrase);
  }

  /** Lower-casing works piece by piece and leaves the gap between two pieces alone. */
  ghost predicate Piecewise(lower: string -> string) {
    (forall a, b :: lower(a + b) == lower(a) + lower(b)) && lower(" ") == " "
  }

  lemma SearchedTogether(lower: string -> string, claim: Claim)
    requires Piecewise(lower)
    ensures lower(ClaimText(claim)) == lower(claim.condition) + " " + lower(claim.action) + " " + lower(claim.outcome) + " "
      + lower(if claim.mechanism.Some? then claim.mechanism.value else "None")
  {
    var m := if claim.mechanism.Some? then claim.mechanism.value else "None";
    assert ClaimText(claim) == (((((claim.condition + " ") + claim.action) + " ") + claim.outcome) + " ") + m;
  }

  lemma RestrictedInAny(x: string, y: string, z: string, m: string)
    requires Restricted(x) || Restricted(y) || Restricted(z) || Restricted(m)
    ensures Restricted(x + " " + y + " " + z + " " + m)
  {
    hide Restricted;
    var text := x + " " + y + " " + z + " " + m;
    if Restricted(x) {
      assert text == "" + x + (" " + y + " " + z + " " + m);
      RestrictedWithin("", x, " " + y + " " + z + " " + m);
    } else if Restricted(y) {
      assert text == (x + " ") + y + (" " + z + " " + m);
      RestrictedWithin(x + " ", y, " " + z + " " + m);
    } else if Restricted(z) {
      assert text == (x + " " + y + " ") + z + (" " + m);
      RestrictedWithin(x + " " + y + " ", z, " " + m);
    } else {
      assert text == (x + " " + y + " " + z + " ") + m + "";
      RestrictedWithin(x + " " + y + " " + z + " ", m, "");
    }
  }

  /** No condition, action, outcome or mechanism of a distilled candidate mentions a restricted phrase in any letter case. */
  lemma NothingRestricted(parse: Parser, lower: string -> string, h: Handoff, c: Candidate)
    requires Piecewise(lower) && Distillable(parse, lower, h) && c in Distilled(parse, lower, h)
    ensures !Restricted(lower(c.condition)) && !Restricted(lower(c.action)) && !Restricted(lower(c.outcome))
    ensures c.mechanism.Some? ==> !Restricted(lower(c.mechanism.value))
  {
    hide Restricted, Piecewise, Bounded, ClaimText;
    var cs := Distilled(parse, lower, h);
    var i: nat :| i < |cs| && cs[i] == c;
    assert Ok(cs[i]) == DistillOne(parse, lower, h, i);
    var claim := parse(h.conclusions[i], h).value;
    SearchedTogether(lower, claim);
    BoundedIff(lower, claim);
    var x, y, z, m := lower(c.condition), lower(c.action), lower(c.outcome),
                      lower(if c.mechanism.Some? then c.mechanism.value else "None");
    if Restricted(x) || Restricted(y) || Restricted(z) || Restricted(m) { RestrictedInAny(x, y, z, m); }
  }

  lemma BoundedIff(lower: string -> string, claim: Claim)
    ensures Bounded(lower, claim) <==> !Restricted(lower(ClaimText(claim)))
  {
  }

  /** The condition, action, outcome and mechanism, joined by spaces, mention nothing restricted. */
  predicate StaysInBounds(lower: string -> string, claim: Claim) {
    var mechanism := if claim.mechanism.Some? then claim.mechanism.value else "None";
    !Restricted(lower(claim.condition + " " + claim.action + " " + claim.outcome + " " + mechanism))
  }

  lemma BoundedIffInBounds(lower: string -> string, claim: Claim)
    ensures Bounded(lower, claim) <==> StaysInBounds(lower, claim)
  {
    hide Restricted;
    BoundedIff(lower, claim);
  }

  /** A conclusion that parses, mentions nothing restricted, and gives a mechanism exactly to more than an association. */
  predicate Teaches(parse: Parser, lower: string -> string, h: Handoff, s: string) {
    parse(s, h).Ok? && StaysInBounds(lower, parse(s, h).value) && FitsMechanism(parse(s, h).value)
  }

  /** More than an association exactly with a mechanism that says something. */
  predicate FitsMechanism(claim: Claim) {
    claim.causal == ObservedAssociation <==>
      claim.mechanism.None? || forall ch | ch in claim.mechanism.value :: Normalization.Space(ch)
  }

  lemma ValidIff(h: Handoff, i: nat, s: string, claim: Claim)
    ensures ValidCandidate(CandidateOf(h, i, s, claim)) <==>
      FitsMechanism(claim) && h.evidenceRefs != [] && Distinct(h.evidenceRefs)
  {
    hide Distinct;
  }

  lemma DistilsOneIff(parse: Parser, lower: string -> string, h: Handoff, i: nat)
    requires i < |h.conclusions|
    ensures DistillOne(parse, lower, h, i).Ok? <==>
      Teaches(parse, lower, h, h.conclusions[i]) && h.evidenceRefs != [] && Distinct(h.evidenceRefs)
  {
    hide StaysInBounds, Bounded, Distinct, ValidCandidate, FitsMechanism;
    if parse(h.conclusions[i], h).Ok? {
      var claim := parse(h.conclusions[i], h).value;
      BoundedIffInBounds(lower, claim);
      ValidIff(h, i, h.conclusions[i], claim);
    }
  }

  /** A handoff distils exactly when its evidence has no gaps or repeats and each of its conclusions teaches something. */
  lemma DistilsIff(parse: Parser, lower: string -> string, h: Handoff)
    ensures Distillable(parse, lower, h) <==>
      forall s | s in h.conclusions :: Teaches(parse, lower, h, s) && h.evidenceRefs != [] && Distinct(h.evidenceRefs)
  {
    hide Teaches, DistillOne, Distinct;
    forall i: nat | i < |h.conclusions|
      ensures DistillOne(parse, lower, h, i).Ok? <==>
        Teaches(parse, lower, h, h.conclusions[i]) && h.evidenceRefs != [] && Distinct(h.evidenceRefs)
    {
      DistilsOneIff(parse, lower, h, i);
    }
    if Distillable(parse, lower, h) {
      forall s | s in h.conclusions ensures Teaches(parse, lower, h, s) && h.evidenceRefs != [] && Distinct(h.evidenceRefs) {
        var i :| 0 <= i < |h.conclusions| && h.conclusions[i] == s;
        assert DistillOne(parse, lower, h, i).Ok?;
      }
    } else {
      var i :| 0 <= i < |h.conclusions| && !DistillOne(parse, lower, h, i).Ok?;
      assert h.conclusions[i] in h.conclusions;
    }
  }

  /** What each candidate takes from its handoff and its conclusion. */
  lemma DistilledRecords(parse: Parser, lower: string -> string, h: Handoff, i: nat)
    requires Distillable(parse, lower, h) && i < |h.conclusions|
    ensures var c, claim := Distilled(parse, lower, h)[i], parse(h.conclusions[i], h).value;
      && c.id == ExperienceId(OfHandoff(h), i, h.conclusions[i]) && c.handoffId == h.id
      && c.tenant == h.tenant && c.domain == h.domain && c.parentMemory == h.parentMemory && c.status == Proposed
      && c.evidenceRefs == h.evidenceRefs
      && c.kind == claim.kind && c.causal == claim.causal && c.condition == claim.condition && c.action == claim.action
      && c.outcome == claim.outcome && c.mechanism == claim.mechanism && c.counterexampleRefs == claim.counterexampleRefs
      && c.applicability == claim.applicability && c.invalidation == claim.invalidation && c.uncertainty == claim.uncertainty
  {
    assert Ok(Distilled(parse, lower, h)[i]) == DistillOne(parse, lower, h, i);
  }

  // --- Identity ---------------------------------------------------------------------------

  /** Made by the distiller from some conclusion of some handoff, whatever its status since. */
  ghost predicate FromDistiller(parse: Parser, c: Candidate) {
    exists h, i: nat, s, claim :: parse(s, h) == Ok(claim) && c == CandidateOf(h, i, s, claim).(status := c.status)
  }

  /** An experience id determines the claim: it is cut out of the handoff, the position and the text. */
  lemma IdDeterminesClaim(parse: Parser, c: Candidate, d: Candidate)
    requires FromDistiller(parse, c) && FromDistiller(parse, d) && c.id == d.id
    ensures c == d.(status := c.status)
  {
  }

  lemma DistilledIsFromDistiller(parse: Parser, lower: string -> string, h: Handoff, c: Candidate)
    requires Distillable(parse, lower, h) && c in Distilled(parse, lower, h)
    ensures FromDistiller(parse, c) && FromDistiller(parse, AsReconciled(c))
    ensures c.tenant == h.tenant && c.domain == h.domain && c.parentMemory == h.parentMemory && ValidCandidate(c)
  {
    var cs := Distilled(parse, lower, h);
    var i: nat :| i < |cs| && cs[i] == c;
    assert Ok(cs[i]) == DistillOne(parse, lower, h, i);
    var claim := parse(h.conclusions[i], h).value;
    assert parse(h.conclusions[i], h) == Ok(claim);
    assert c == CandidateOf(h, i, h.conclusions[i], claim).(status := c.status);
    assert AsReconciled(c) == CandidateOf(h, i, h.conclusions[i], claim).(status := Reconciled);
  }

  lemma {:induction false} MemoryIsFromDistiller(parse: Parser, norm: Norm, cs: seq<Candidate>, s: Snapshot)
    requires forall c | c in cs :: FromDistiller(parse, AsReconciled(c))
    requires forall c | c in s.experiences :: FromDistiller(parse, c)
    ensures forall c | c in MergedAll(norm, cs, s).experiences :: FromDistiller(parse, c)
  {
    hide FromDistiller;
    if cs != [] {
      assert cs == cs[..|cs| - 1] + [cs[|cs| - 1]];
      MemoryIsFromDistiller(parse, norm, cs[..|cs| - 1], s);
    }
  }

  lemma SameIdSameSignature(parse: Parser, norm: Norm, c: Candidate, d: Candidate)
    requires FromDistiller(parse, c) && FromDistiller(parse, d)
    ensures c.id == d.id ==> SignatureOf(norm, c) == SignatureOf(norm, d)
  {
    hide FromDistiller;
    if c.id == d.id { IdDeterminesClaim(parse, c, d); }
  }

  /** In a memory of distilled claims with distinct signatures no id occurs twice. */
  lemma DistinctSignaturesDistinctIds(parse: Parser, norm: Norm, xs: seq<Candidate>)
    requires (forall c | c in xs :: FromDistiller(parse, c)) && DistinctSignatures(norm, xs)
    ensures Distinct(Ids(xs))
  {
    hide FromDistiller;
    forall i, j | 0 <= i < j < |xs| ensures Ids(xs)[i] != Ids(xs)[j] {
      assert xs[i] in xs && xs[j] in xs;
      SameIdSameSignature(parse, norm, xs[i], xs[j]);
    }
  }

  /** Merging distilled claims never puts one id into memory twice. */
  lemma IdsStayUnique(parse: Parser, norm: Norm, cs: seq<Candidate>, s: Snapshot)
    requires forall c | c in cs :: FromDistiller(parse, AsReconciled(c))
    requires (forall c | c in s.experiences :: FromDistiller(parse, c)) && DistinctSignatures(norm, s.experiences)
    ensures Distinct(Ids(MergedAll(norm, cs, s).experiences))
  {
    hide FromDistiller;
    MemoryIsFromDistiller(parse, norm, cs, s);
    SignaturesStayDistinct(norm, cs, s);
    DistinctSignaturesDistinctIds(parse, norm, MergedAll(norm, cs, s).experiences);
  }

  // --- Batches of handoffs ----------------------------------------------------------------

  datatype BroadResult = BroadResult(handoffs: seq<Handoff>, candidates: seq<Candidate>, reconciliation: Reconciliation)

  /** Strings compare by code point. */
  function IdKey(h: Handoff): Ordering.Key { seq(|h.id|, i requires 0 <= i < |h.id| => h.id[i] as nat) }

  predicate Branches(h: Handoff, s: Snapshot) {
    h.tenant == s.tenant && h.domain == s.domain && h.parentMemory == s.Hash()
  }

  function DistilledAll(parse: Parser, lower: string -> string, hs: seq<Handoff>): seq<Candidate>
    requires forall h | h in hs :: Distillable(parse, lower, h)
  {
    if hs == [] then [] else Distilled(parse, lower, hs[0]) + DistilledAll(parse, lower, hs[1..])
  }

  function BroadBatch(parse: Parser, lower: string -> string, norm: Norm, hs: seq<Handoff>, s: Snapshot): Result<BroadResult> {
    var ordered := Ordering.Sorted(IdKey, hs);
    if hs == [] || exists h | h in hs :: !Branches(h, s) then Raised
    else if exists h | h in ordered :: !Distillable(parse, lower, h) then Raised
    else
      var cs := DistilledAll(parse, lower, ordered);
      if exists c | c in cs :: !Shares(c, s) then Raised
      else Ok(BroadResult(ordered, cs, Reconciliation(Proposals(norm, cs, s), MergedAll(norm, cs, s))))
  }

  lemma KeyDeterminesId(h: Handoff, k: Handoff)
    requires IdKey(h) == IdKey(k)
    ensures h.id == k.id
  {
    forall i | 0 <= i < |h.id| ensures h.id[i] == k.id[i] {
      assert IdKey(h)[i] == IdKey(k)[i];
    }
    assert |IdKey(h)| == |h.id| && |IdKey(k)| == |k.id|;
  }

  /** The order in which branches report decides nothing. */
  lemma ArrivalOrderIsIrrelevant(
      parse: Parser, lower: string -> string, norm: Norm, hs: seq<Handoff>, ks: seq<Handoff>, s: Snapshot)
    requires multiset(hs) == multiset(ks)
    requires forall h, k | h in hs && k in hs && h.id == k.id :: h == k
    ensures BroadBatch(parse, lower, norm, hs, s) == BroadBatch(parse, lower, norm, ks, s)
  {
    forall h, k | h in hs && k in hs && IdKey(h) == IdKey(k) ensures h == k { KeyDeterminesId(h, k); }
    Ordering.SortedForgetsOrder(IdKey, hs, ks);
    Ordering.SameElements(hs, ks);
  }

  lemma {:induction false} DistilledAllMembers(parse: Parser, lower: string -> string, hs: seq<Handoff>)
    requires forall h | h in hs :: Distillable(parse, lower, h)
    ensures forall c | c in DistilledAll(parse, lower, hs) :: exists h :: h in hs && c in Distilled(parse, lower, h)
    ensures hs != [] && (forall h | h in hs :: h.conclusions != []) ==> DistilledAll(parse, lower, hs) != []
  {
    hide Distillable;
    if hs != [] {
      assert hs == [hs[0]] + hs[1..];
      DistilledAllMembers(parse, lower, hs[1..]);
      forall c | c in DistilledAll(parse, lower, hs) ensures exists h :: h in hs && c in Distilled(parse, lower, h) {
        if c in Distilled(parse, lower, hs[0]) {
          assert hs[0] in hs;
        } else {
          assert c in DistilledAll(parse, lower, hs[1..]);
          var h :| h in hs[1..] && c in Distilled(parse, lower, h);
          assert h in hs;
        }
      }
      assert hs[0] in hs;
    }
  }

  lemma {:induction false} DistilledConcat(parse: Parser, lower: string -> string, hs: seq<Handoff>, ks: seq<Handoff>)
    requires forall h | h in hs + ks :: Distillable(parse, lower, h)
    ensures forall h | h in hs || h in ks :: h in hs + ks
    ensures DistilledAll(parse, lower, hs + ks) == DistilledAll(parse, lower, hs) + DistilledAll(parse, lower, ks)
    ensures forall h | Distillable(parse, lower, h) :: DistilledAll(parse, lower, [h]) == Distilled(parse, lower, h)
  {
    hide Distillable;
    forall h | h in hs || h in ks ensures h in hs + ks {}
    forall h | Distillable(parse, lower, h) ensures DistilledAll(parse, lower, [h]) == Distilled(parse, lower, h) {
      assert [h][1..] == [];
    }
    if hs == [] {
      assert hs + ks == ks;
    } else {
      assert (hs + ks)[1..] == hs[1..] + ks;
      DistilledConcat(parse, lower, hs[1..], ks);
    }
  }

  /** A batch takes its handoffs by ascending id, whatever order they came in, and reconciles their claims in that order. */
  lemma BroadBatchIsInOrder(parse: Parser, lower: string -> string, norm: Norm, hs: seq<Handoff>, s: Snapshot)
    requires BroadBatch(parse, lower, norm, hs, s).Ok?
    ensures var r := BroadBatch(parse, lower, norm, hs, s).value;
      && multiset(r.handoffs) == multiset(hs) && Ordering.Ascending(IdKey, r.handoffs)
      && (forall h | h in r.handoffs :: Distillable(parse, lower, h))
      && r.candidates == DistilledAll(parse, lower, r.handoffs)
      && r.reconciliation.revisions == Proposals(norm, r.candidates, s)
      && r.reconciliation.snapshot == MergedAll(norm, r.candidates, s)
  {
    hide Distillable;
    Ordering.SortedAscends(IdKey, hs);
  }

  /** A batch succeeds exactly when every branch starts from this memory and distils; its claims then share its scope. */
  lemma BroadBatchSucceedsIff(parse: Parser, lower: string -> string, norm: Norm, hs: seq<Handoff>, s: Snapshot)
    ensures BroadBatch(parse, lower, norm, hs, s).Ok? <==>
      hs != [] && forall h | h in hs ::
        h.tenant == s.tenant && h.domain == s.domain && h.parentMemory == s.Hash() && Distillable(parse, lower, h)
  {
    hide Distillable;
    var ordered := Ordering.Sorted(IdKey, hs);
    Ordering.SameElements(ordered, hs);
    if hs != [] && forall h | h in hs :: Branches(h, s) && Distillable(parse, lower, h) {
      DistilledAllMembers(parse, lower, ordered);
      forall c | c in DistilledAll(parse, lower, ordered) ensures Shares(c, s) {
        var h :| h in ordered && c in Distilled(parse, lower, h);
        DistilledIsFromDistiller(parse, lower, h, c);
      }
    }
  }

  /** The retry-safe unit for one handoff: one revision for each claim, chained from this memory to the final one. */
  lemma AtomicBatch(parse: Parser, lower: string -> string, norm: Norm, h: Handoff, s: Snapshot)
    requires ValidHandoff(h) && BroadBatch(parse, lower, norm, [h], s).Ok?
    ensures var r := BroadBatch(parse, lower, norm, [h], s).value;
      && Distillable(parse, lower, h) && r.candidates == Distilled(parse, lower, h)
      && |r.candidates| == |r.reconciliation.revisions| == |h.conclusions|
      && r.reconciliation.revisions[0].parent == h.parentMemory
      && r.reconciliation.revisions[|h.conclusions| - 1].proposed == r.reconciliation.snapshot.Hash()
  {
    hide Distillable, Proposal;
    BroadBatchSucceedsIff(parse, lower, norm, [h], s);
    assert h in [h];
    assert [h][1..] == [] && Ordering.Sorted(IdKey, []) == [];
    assert Ordering.Sorted(IdKey, [h]) == [h];
    assert Distilled(parse, lower, h) + [] == Distilled(parse, lower, h);
    assert DistilledAll(parse, lower, [h]) == Distilled(parse, lower, h) + DistilledAll(parse, lower, []);
    ChainIsUnbroken(norm, Distilled(parse, lower, h), s);
  }

  /** A batch's id is cut out of its handoff, the binding and the memory it starts from. */
  datatype BatchId = BatchId(handoff: Digest, binding: string, parent: Digest)

  datatype LearningBatch = LearningBatch(
    id: BatchId, handoffId: string, tenant: string, domain: string, binding: string,
    candidates: seq<Candidate>, revisions: seq<Revision>, final: Digest)

  /** The record's own validator: one revision for each of at least one candidate. */
  predicate ValidBatch(b: LearningBatch) {
    b.candidates != [] && b.revisions != [] && |b.candidates| == |b.revisions|
  }

  function BuildAtomicBatch(
      parse: Parser, lower: string -> string, norm: Norm, h: Handoff, s: Snapshot): Result<LearningBatch>
  {
    match BroadBatch(parse, lower, norm, [h], s)
    case Raised => Raised
    case Ok(r) =>
      var b := LearningBatch(
        BatchId(OfHandoff(h), s.binding, s.Hash()), h.id, h.tenant, h.domain, s.binding,
        r.candidates, r.reconciliation.revisions, r.reconciliation.snapshot.Hash());
      if ValidBatch(b) then Ok(b) else Raised
  }

  /** A valid handoff makes a batch exactly when it starts from this memory and distils. */
  lemma AtomicBatchSucceedsIff(parse: Parser, lower: string -> string, norm: Norm, h: Handoff, s: Snapshot)
    requires ValidHandoff(h)
    ensures BuildAtomicBatch(parse, lower, norm, h, s).Ok? <==>
      h.tenant == s.tenant && h.domain == s.domain && h.parentMemory == s.Hash() && Distillable(parse, lower, h)
  {
    hide Distillable, Proposal;
    BroadBatchSucceedsIff(parse, lower, norm, [h], s);
    assert h in [h];
    if BroadBatch(parse, lower, norm, [h], s).Ok? { AtomicBatch(parse, lower, norm, h, s); }
  }

  /** What a batch record says: whose handoff, in which scope, the claims and their chain of revisions, and where it ends. */
  lemma AtomicBatchRecords(parse: Parser, lower: string -> string, norm: Norm, h: Handoff, s: Snapshot)
    requires ValidHandoff(h) && BuildAtomicBatch(parse, lower, norm, h, s).Ok?
    ensures var b := BuildAtomicBatch(parse, lower, norm, h, s).value;
      && b.handoffId == h.id && b.tenant == h.tenant && b.domain == h.domain && b.binding == s.binding
      && b.id == BatchId(OfHandoff(h), s.binding, h.parentMemory)
      && |b.candidates| == |b.revisions| == |h.conclusions|
      && (forall i | 0 <= i < |b.candidates| :: Ok(b.candidates[i]) == DistillOne(parse, lower, h, i))
      && b.revisions[0].parent == h.parentMemory && b.final == b.revisions[|b.revisions| - 1].proposed
  {
    hide Distillable, Proposal, DistillOne;
    BroadBatchSucceedsIff(parse, lower, norm, [h], s);
    assert h in [h];
    AtomicBatch(parse, lower, norm, h, s);
  }

  /** Retry-safe: two batches with one id are one batch. */
  lemma BatchIdDeterminesBatch(
      parse: Parser, lower: string -> string, norm: Norm, h: Handoff, s: Snapshot, k: Handoff, t: Snapshot)
    requires BuildAtomicBatch(parse, lower, norm, h, s).Ok? && BuildAtomicBatch(parse, lower, norm, k, t).Ok?
    requires BuildAtomicBatch(parse, lower, norm, h, s).value.id == BuildAtomicBatch(parse, lower, norm, k, t).value.id
    ensures BuildAtomicBatch(parse, lower, norm, h, s) == BuildAtomicBatch(parse, lower, norm, k, t)
  {
    hide BroadBatch;
    assert OfHandoff(h) == OfHandoff(k) && s.Hash() == t.Hash();
  }
}
