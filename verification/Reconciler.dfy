/**
 Merging distilled claims into an immutable memory, one at a time and in order.

 Two claims are equivalent when condition, action and outcome normalise to the same texts
 and the kind is the same; `norm` is the normalisation, see module Normalization.
 */
module Reconciler {
  import opened Sequences
  import opened Records
  import Worker
  import Normalization

  type Norm = string -> string

  datatype Signature = Signature(condition: string, action: string, outcome: string, kind: Kind)

  datatype Reconciliation = Reconciliation(revisions: seq<Revision>, snapshot: Snapshot)

  function SignatureOf(norm: Norm, c: Candidate): Signature {
    Signature(norm(c.condition), norm(c.action), norm(c.outcome), c.kind)
  }

  predicate Remembers(norm: Norm, xs: seq<Candidate>, c: Candidate) {
    exists x | x in xs :: SignatureOf(norm, x) == SignatureOf(norm, c)
  }

  predicate Contradicts(norm: Norm, x: Candidate, c: Candidate) {
    norm(x.condition) == norm(c.condition) && norm(x.action) == norm(c.action) && norm(x.outcome) != norm(c.outcome)
  }

  function Conflicts(norm: Norm, xs: seq<Candidate>, c: Candidate): (r: seq<Candidate>)
    ensures forall x :: x in r <==> x in xs && Contradicts(norm, x, c)
  {
    if xs == [] then []
    else
      assert xs == [xs[0]] + xs[1..];
      (if Contradicts(norm, xs[0], c) then [xs[0]] else []) + Conflicts(norm, xs[1..], c)
  }

  const DUPLICATE := "Equivalent" + " conditional experience already exists in the current snapshot."
  const BOUNDED := "Conflicting" + " outcome retained as a bounded qualification pending independent evaluation."
  const SCOPED := "New" + " scoped conditional experience has no duplicate or direct contradiction."

  function Merged(norm: Norm, c: Candidate, s: Snapshot): Snapshot {
    if Remembers(norm, s.experiences, c) then s else s.(experiences := s.experiences + [AsReconciled(c)])
  }

  function OperationFor(norm: Norm, c: Candidate, s: Snapshot): Operation {
    if Remembers(norm, s.experiences, c) then NoChange
    else if Conflicts(norm, s.experiences, c) != [] then Qualify
    else Add
  }

  function Proposal(norm: Norm, c: Candidate, s: Snapshot): Revision {
    var operation, conflicts := OperationFor(norm, c, s), Conflicts(norm, s.experiences, c);
    var proposed := Merged(norm, c, s).Hash();
    Revision(
      RevisionId(OfCandidate(c), s.Hash(), proposed, operation), s.tenant, s.domain, s.binding, s.Hash(),
      if operation == NoChange then [] else [c.id], operation,
      if operation == Qualify then Some(conflicts[0].id) else None, Ids(conflicts),
      if operation == NoChange then DUPLICATE else if operation == Qualify then BOUNDED else SCOPED, proposed)
  }

  /** Memory once all of these candidates have been merged. */
  function MergedAll(norm: Norm, cs: seq<Candidate>, s: Snapshot): Snapshot {
    if cs == [] then s else Merged(norm, cs[|cs| - 1], MergedAll(norm, cs[..|cs| - 1], s))
  }

  /** Each candidate is judged against memory as its predecessors left it. */
  function Proposals(norm: Norm, cs: seq<Candidate>, s: Snapshot): (r: seq<Revision>)
    ensures |r| == |cs| && forall i | 0 <= i < |cs| :: r[i] == Proposal(norm, cs[i], MergedAll(norm, cs[..i], s))
  {
    seq(|cs|, i requires 0 <= i < |cs| => Proposal(norm, cs[i], MergedAll(norm, cs[..i], s)))
  }

  predicate Shares(c: Candidate, s: Snapshot) {
    c.tenant == s.tenant && c.domain == s.domain && c.parentMemory == s.Hash()
  }

  /** All or nothing: one candidate from another scope or another memory and the batch is refused. */
  method ReconcileBatch(norm: Norm, candidates: seq<Candidate>, snapshot: Snapshot) returns (r: Result<Reconciliation>)
    ensures r == if forall c | c in candidates ::
                      c.tenant == snapshot.tenant && c.domain == snapshot.domain && c.parentMemory == snapshot.Hash()
                 then Ok(Reconciliation(Proposals(norm, candidates, snapshot), MergedAll(norm, candidates, snapshot)))
                 else Raised
  {
    hide Proposals, MergedAll, Shares, Proposal, Merged;
    SharesMeans(snapshot);
    if exists c | c in candidates :: !Shares(c, snapshot) { return Raised; }
    var current, revisions := snapshot, [];
    NothingMerged(norm, snapshot);
    assert candidates[..0] == [];
    for k := 0 to |candidates|
      invariant current == MergedAll(norm, candidates[..k], snapshot)
      invariant revisions == Proposals(norm, candidates[..k], snapshot)
    {
      assert candidates[..k + 1][..k] == candidates[..k];
      ProposalsPrefix(norm, candidates[..k + 1], snapshot);
      MergedOneMore(norm, candidates, snapshot, k);
      revisions := revisions + [Proposal(norm, candidates[k], current)];
      current := Merged(norm, candidates[k], current);
    }
    assert candidates[..|candidates|] == candidates;
    return Ok(Reconciliation(revisions, current));
  }

  lemma SharesMeans(s: Snapshot)
    ensures forall c :: Shares(c, s) <==> c.tenant == s.tenant && c.domain == s.domain && c.parentMemory == s.Hash()
  {
  }

  lemma NothingMerged(norm: Norm, s: Snapshot)
    ensures MergedAll(norm, [], s) == s && Proposals(norm, [], s) == []
  {
  }

  // --- The fold ---------------------------------------------------------------------------

  lemma MergedOneMore(norm: Norm, cs: seq<Candidate>, s: Snapshot, i: nat)
    requires i < |cs|
    ensures MergedAll(norm, cs[..i + 1], s) == Merged(norm, cs[i], MergedAll(norm, cs[..i], s))
  {
    assert cs[..i + 1][..i] == cs[..i];
  }

  lemma ConflictsNamed(norm: Norm, c: Candidate, s: Snapshot, id: Id)
    ensures id in Proposal(norm, c, s).conflictsWith <==>
      exists x | x in s.experiences :: Contradicts(norm, x, c) && x.id == id
  {
    hide Contradicts, Merged, OperationFor;
    var conflicts := Conflicts(norm, s.experiences, c);
    if x :| x in conflicts && x.id == id {
      var k :| 0 <= k < |conflicts| && conflicts[k] == x;
      assert Ids(conflicts)[k] == id;
    }
    if id in Ids(conflicts) {
      var k :| 0 <= k < |conflicts| && Ids(conflicts)[k] == id;
      assert conflicts[k] in conflicts;
    }
  }

  /** Which verdict a candidate gets, and what the revision then names. */
  lemma ProposalMeaning(norm: Norm, c: Candidate, s: Snapshot)
    ensures var r := Proposal(norm, c, s);
      var known := exists x | x in s.experiences :: SignatureOf(norm, x) == SignatureOf(norm, c);
      var contradicted := exists x | x in s.experiences :: Contradicts(norm, x, c);
      && (r.operation == NoChange <==> known)
      && (r.operation == Qualify <==> !known && contradicted)
      && (r.operation == Add <==> !known && !contradicted)
      && (r.operation == Qualify ==> exists x | x in s.experiences :: Contradicts(norm, x, c) && r.target == Some(x.id))
      && (forall id :: id in r.conflictsWith <==> exists x | x in s.experiences :: Contradicts(norm, x, c) && x.id == id)
      && ValidRevision(r)
  {
    hide Contradicts, Merged, SignatureOf;
    var conflicts := Conflicts(norm, s.experiences, c);
    assert conflicts != [] ==> conflicts[0] in conflicts;
    forall id ensures id in Proposal(norm, c, s).conflictsWith <==>
        exists x | x in s.experiences :: Contradicts(norm, x, c) && x.id == id
    {
      ConflictsNamed(norm, c, s, id);
    }
  }

  /** How many of these revisions change memory. */
  function Changing(rs: seq<Revision>): nat {
    if rs == [] then 0 else Changing(rs[..|rs| - 1]) + if rs[|rs| - 1].operation == NoChange then 0 else 1
  }

  lemma ProposalsPrefix(norm: Norm, cs: seq<Candidate>, s: Snapshot)
    requires cs != []
    ensures var n := |cs| - 1;
      Proposals(norm, cs, s)[..n] == Proposals(norm, cs[..n], s)
      && Proposals(norm, cs, s)[n] == Proposal(norm, cs[n], MergedAll(norm, cs[..n], s))
  {
    hide Proposal, MergedAll;
    var n := |cs| - 1;
    forall i: nat | i < n ensures cs[..i] == cs[..n][..i] {}
  }

  lemma ProposalGrows(norm: Norm, c: Candidate, s: Snapshot)
    ensures var r, end := Proposal(norm, c, s), Merged(norm, c, s);
      && r.parent == s.Hash() && r.proposed == end.Hash()
      && end == s.(experiences := end.experiences)
      && (r.operation == NoChange <==> end == s)
      && (r.operation != NoChange ==> end.experiences == s.experiences + [AsReconciled(c)] && r.candidateIds == [c.id])
  {
    assert |s.experiences + [AsReconciled(c)]| == |s.experiences| + 1;
  }

  /** Memory only grows, by one experience for each memory-changing revision, and keeps its scope. */
  lemma {:induction false} MemoryGrows(norm: Norm, cs: seq<Candidate>, s: Snapshot)
    ensures var end := MergedAll(norm, cs, s);
      && s.experiences <= end.experiences
      && |end.experiences| == |s.experiences| + Changing(Proposals(norm, cs, s))
      && end.tenant == s.tenant && end.domain == s.domain && end.binding == s.binding
  {
    hide Proposal, Merged;
    if cs != [] {
      var n := |cs| - 1;
      MemoryGrows(norm, cs[..n], s);
      ProposalsPrefix(norm, cs, s);
      ProposalGrows(norm, cs[n], MergedAll(norm, cs[..n], s));
    }
  }

  lemma MergedStaysValid(norm: Norm, c: Candidate, s: Snapshot)
    requires ValidSnapshot(s) && c.tenant == s.tenant && c.domain == s.domain
    ensures ValidSnapshot(Merged(norm, c, s))
  {
  }

  /** A batch of its own scope leaves memory in its own scope. */
  lemma {:induction false} MemoryStaysValid(norm: Norm, cs: seq<Candidate>, s: Snapshot)
    requires ValidSnapshot(s) && forall c | c in cs :: Shares(c, s)
    ensures ValidSnapshot(MergedAll(norm, cs, s))
  {
    hide Proposal, Merged;
    if cs != [] {
      var n := |cs| - 1;
      assert cs == cs[..n] + [cs[n]];
      MemoryStaysValid(norm, cs[..n], s);
      MemoryGrows(norm, cs[..n], s);
      assert Shares(cs[n], s) && Shares(AsReconciled(cs[n]), s);
      MergedStaysValid(norm, cs[n], MergedAll(norm, cs[..n], s));
    }
  }

  /** Revisions form one unbroken chain of memories, from the batch's snapshot to the result. */
  lemma ChainIsUnbroken(norm: Norm, cs: seq<Candidate>, s: Snapshot)
    ensures var rs := Proposals(norm, cs, s);
      && (rs != [] ==> rs[0].parent == s.Hash() && rs[|rs| - 1].proposed == MergedAll(norm, cs, s).Hash())
      && (rs == [] ==> MergedAll(norm, cs, s) == s)
      && (forall i | 0 <= i < |rs| - 1 :: rs[i + 1].parent == rs[i].proposed)
      && (forall i | 0 <= i < |rs| :: rs[i].operation == NoChange <==> rs[i].proposed == rs[i].parent)
  {
    hide Proposal, Merged;
    var rs := Proposals(norm, cs, s);
    forall i: nat | i < |cs|
      ensures rs[i].parent == MergedAll(norm, cs[..i], s).Hash() && rs[i].proposed == MergedAll(norm, cs[..i + 1], s).Hash()
      ensures rs[i].operation == NoChange <==> rs[i].proposed == rs[i].parent
    {
      MergedOneMore(norm, cs, s, i);
      ProposalGrows(norm, cs[i], MergedAll(norm, cs[..i], s));
    }
    assert cs[..|cs|] == cs;
    if cs != [] { assert cs[..0] == []; }
  }

  lemma {:induction false} PrefixGrows(norm: Norm, cs: seq<Candidate>, s: Snapshot, i: nat, j: nat)
    requires i <= j <= |cs|
    ensures |MergedAll(norm, cs[..i], s).experiences| <= |MergedAll(norm, cs[..j], s).experiences|
    decreases j
  {
    if i < j {
      PrefixGrows(norm, cs, s, i, j - 1);
      MergedOneMore(norm, cs, s, j - 1);
    }
  }

  lemma {:induction false} PrefixRemembers(norm: Norm, cs: seq<Candidate>, s: Snapshot, i: nat, j: nat)
    requires i <= j <= |cs|
    ensures forall x | x in MergedAll(norm, cs[..i], s).experiences :: x in MergedAll(norm, cs[..j], s).experiences
    decreases j
  {
    hide MergedAll;
    if i < j {
      PrefixRemembers(norm, cs, s, i, j - 1);
      MergedOneMore(norm, cs, s, j - 1);
    }
  }

  /** No two memory-changing revisions of a batch start from the same memory. */
  lemma OneChangePerMemory(norm: Norm, cs: seq<Candidate>, s: Snapshot, i: nat, j: nat)
    requires i < j < |cs|
    requires Proposals(norm, cs, s)[i].operation != NoChange && Proposals(norm, cs, s)[j].operation != NoChange
    ensures Proposals(norm, cs, s)[i].parent != Proposals(norm, cs, s)[j].parent
  {
    MergedOneMore(norm, cs, s, i);
    PrefixGrows(norm, cs, s, i + 1, j);
  }

  predicate DistinctSignatures(norm: Norm, xs: seq<Candidate>) {
    forall i, j | 0 <= i < j < |xs| :: SignatureOf(norm, xs[i]) != SignatureOf(norm, xs[j])
  }

  lemma {:induction false} SignaturesStayDistinct(norm: Norm, cs: seq<Candidate>, s: Snapshot)
    requires DistinctSignatures(norm, s.experiences)
    ensures DistinctSignatures(norm, MergedAll(norm, cs, s).experiences)
  {
    if cs != [] {
      var n := |cs| - 1;
      SignaturesStayDistinct(norm, cs[..n], s);
      var before := MergedAll(norm, cs[..n], s).experiences;
      assert forall i | 0 <= i < |before| :: before[i] in before;
      assert SignatureOf(norm, AsReconciled(cs[n])) == SignatureOf(norm, cs[n]);
    }
  }

  /** A target is in memory before the revision that qualifies it. */
  lemma TargetsAreRemembered(norm: Norm, cs: seq<Candidate>, s: Snapshot, i: nat)
    requires i < |cs| && Proposals(norm, cs, s)[i].operation == Qualify
    ensures exists x | x in MergedAll(norm, cs[..i], s).experiences ::
      Proposals(norm, cs, s)[i].target == Some(x.id) && Contradicts(norm, x, cs[i])
  {
    ProposalMeaning(norm, cs[i], MergedAll(norm, cs[..i], s));
  }

  // --- Order and repetition ---------------------------------------------------------------

  function Signatures(norm: Norm, xs: seq<Candidate>): set<Signature> { set x | x in xs :: SignatureOf(norm, x) }

  lemma SignaturesAppend(norm: Norm, xs: seq<Candidate>, c: Candidate)
    ensures Signatures(norm, xs + [c]) == Signatures(norm, xs) + {SignatureOf(norm, c)}
  {
    forall g | g in Signatures(norm, xs) + {SignatureOf(norm, c)} ensures g in Signatures(norm, xs + [c]) {
      if g == SignatureOf(norm, c) {
        assert c in xs + [c];
      } else {
        var x :| x in xs && SignatureOf(norm, x) == g;
        assert x in xs + [c];
      }
    }
  }

  lemma NoSignatures(norm: Norm) ensures Signatures(norm, []) == {} {}

  lemma MergedKnows(norm: Norm, c: Candidate, s: Snapshot)
    ensures var g, known, end := SignatureOf(norm, c), Signatures(norm, s.experiences), Merged(norm, c, s).experiences;
      && Signatures(norm, end) == known + {g}
      && |end| == |s.experiences| + if g in known then 0 else 1
  {
    SignaturesAppend(norm, s.experiences, AsReconciled(c));
    assert SignatureOf(norm, AsReconciled(c)) == SignatureOf(norm, c);
    assert Remembers(norm, s.experiences, c) <==> SignatureOf(norm, c) in Signatures(norm, s.experiences);
  }

  /** What memory knows afterwards, and how much of it: old and new claims, each once. */
  lemma {:induction false} MemoryKnows(norm: Norm, cs: seq<Candidate>, s: Snapshot)
    ensures var end := MergedAll(norm, cs, s).experiences;
      && Signatures(norm, end) == Signatures(norm, s.experiences) + Signatures(norm, cs)
      && |end| == |s.experiences| + |Signatures(norm, cs) - Signatures(norm, s.experiences)|
  {
    hide Signatures, SignatureOf, Merged;
    var known := Signatures(norm, s.experiences);
    if cs == [] {
      assert Signatures(norm, cs) == {} by { NoSignatures(norm); }
      assert Signatures(norm, cs) - known == {};
    } else {
      var n := |cs| - 1;
      MemoryKnows(norm, cs[..n], s);
      assert cs == cs[..n] + [cs[n]];
      var g := SignatureOf(norm, cs[n]);
      SignaturesAppend(norm, cs[..n], cs[n]);
      MergedKnows(norm, cs[n], MergedAll(norm, cs[..n], s));
      assert Signatures(norm, cs) - known ==
        if g in known + Signatures(norm, cs[..n]) then Signatures(norm, cs[..n]) - known
        else (Signatures(norm, cs[..n]) - known) + {g};
    }
  }

  /** The order of a batch, and repeats in it, decide neither what memory knows nor how much. */
  lemma OrderIsIrrelevant(norm: Norm, cs: seq<Candidate>, ds: seq<Candidate>, s: Snapshot)
    requires forall c :: c in cs <==> c in ds
    ensures var x, y := MergedAll(norm, cs, s).experiences, MergedAll(norm, ds, s).experiences;
      Signatures(norm, x) == Signatures(norm, y) && |x| == |y|
  {
    MemoryKnows(norm, cs, s);
    MemoryKnows(norm, ds, s);
    assert Signatures(norm, cs) == Signatures(norm, ds);
  }

  lemma {:induction false} KnownChangesNothing(norm: Norm, cs: seq<Candidate>, s: Snapshot)
    requires Signatures(norm, cs) <= Signatures(norm, s.experiences)
    ensures MergedAll(norm, cs, s) == s
    ensures forall r | r in Proposals(norm, cs, s) :: r.operation == NoChange && r.candidateIds == []
  {
    forall i: nat | i <= |cs| ensures MergedAll(norm, cs[..i], s) == s { KnownPrefix(norm, cs, s, i); }
    assert cs[..|cs|] == cs;
    forall r | r in Proposals(norm, cs, s) ensures r.operation == NoChange {
      var i: nat :| i < |cs| && Proposals(norm, cs, s)[i] == r;
      assert MergedAll(norm, cs[..i], s) == s;
      assert SignatureOf(norm, cs[i]) in Signatures(norm, cs);
    }
  }

  lemma {:induction false} KnownPrefix(norm: Norm, cs: seq<Candidate>, s: Snapshot, i: nat)
    requires Signatures(norm, cs) <= Signatures(norm, s.experiences) && i <= |cs|
    ensures MergedAll(norm, cs[..i], s) == s
  {
    if i == 0 {
      assert cs[..0] == [];
    } else {
      KnownPrefix(norm, cs, s, i - 1);
      MergedOneMore(norm, cs, s, i - 1);
      assert SignatureOf(norm, cs[i - 1]) in Signatures(norm, cs);
    }
  }

  /** Reconciling claims that memory already absorbed, in any order and under any parent, changes nothing. */
  lemma AgainChangesNothing(norm: Norm, cs: seq<Candidate>, again: seq<Candidate>, s: Snapshot)
    requires forall d | d in again :: exists c | c in cs :: SignatureOf(norm, c) == SignatureOf(norm, d)
    ensures var end := MergedAll(norm, cs, s);
      && MergedAll(norm, again, end) == end
      && forall r | r in Proposals(norm, again, end) :: r.operation == NoChange && r.candidateIds == []
  {
    var end := MergedAll(norm, cs, s);
    MemoryKnows(norm, cs, s);
    forall g | g in Signatures(norm, again) ensures g in Signatures(norm, end.experiences) {
      var d :| d in again && SignatureOf(norm, d) == g;
      var c :| c in cs && SignatureOf(norm, c) == SignatureOf(norm, d);
    }
    KnownChangesNothing(norm, again, end);
  }

  // --- Letter case and white space --------------------------------------------------------

  /** The normalisation of the source, for a lower-casing table. */
  function Normalizing(lower: char -> string): Norm { t => Normalization.Normalized(lower, t) }

  predicate SameWords(lower: char -> string, a: string, b: string) {
    Normalization.Split(Normalization.Lower(lower, a)) == Normalization.Split(Normalization.Lower(lower, b))
  }

  /** The same claim but for letter case and white space. */
  predicate Rephrases(lower: char -> string, x: Candidate, c: Candidate) {
    && SameWords(lower, x.condition, c.condition) && SameWords(lower, x.action, c.action)
    && SameWords(lower, x.outcome, c.outcome) && x.kind == c.kind
  }

  lemma SameSignatureIffRephrased(lower: char -> string, x: Candidate, c: Candidate)
    ensures SignatureOf(Normalizing(lower), x) == SignatureOf(Normalizing(lower), c) <==> Rephrases(lower, x, c)
  {
    Normalization.SameNormalIffSameWords(lower, x.condition, c.condition);
    Normalization.SameNormalIffSameWords(lower, x.action, c.action);
    Normalization.SameNormalIffSameWords(lower, x.outcome, c.outcome);
  }

  /** A claim changes nothing exactly when memory holds it up to letter case and white space. */
  lemma NoChangeIffRephrased(lower: char -> string, c: Candidate, s: Snapshot)
    ensures var r := Proposal(Normalizing(lower), c, s);
      && (r.operation == NoChange <==> exists x | x in s.experiences :: Rephrases(lower, x, c))
      && (r.operation == NoChange <==> Merged(Normalizing(lower), c, s) == s)
  {
    hide Rephrases, SignatureOf, Contradicts, Proposal, Merged;
    ProposalMeaning(Normalizing(lower), c, s);
    ProposalGrows(Normalizing(lower), c, s);
    forall x | x in s.experiences
      ensures SignatureOf(Normalizing(lower), x) == SignatureOf(Normalizing(lower), c) <==> Rephrases(lower, x, c)
    {
      SameSignatureIffRephrased(lower, x, c);
    }
  }

  /** The same condition and action, but another outcome, up to letter case and white space. */
  predicate Opposes(lower: char -> string, x: Candidate, c: Candidate) {
    && SameWords(lower, x.condition, c.condition) && SameWords(lower, x.action, c.action)
    && !SameWords(lower, x.outcome, c.outcome)
  }

  lemma ContradictsIffOpposes(lower: char -> string, x: Candidate, c: Candidate)
    ensures Contradicts(Normalizing(lower), x, c) <==> Opposes(lower, x, c)
  {
    Normalization.SameNormalIffSameWords(lower, x.condition, c.condition);
    Normalization.SameNormalIffSameWords(lower, x.action, c.action);
    Normalization.SameNormalIffSameWords(lower, x.outcome, c.outcome);
  }

  /** `at` lists the places of all the experiences that oppose the claim, in memory order. */
  predicate PlacesOpposed(lower: char -> string, xs: seq<Candidate>, c: Candidate, at: seq<int>) {
    && (forall i | 0 <= i < |at| :: 0 <= at[i] < |xs| && Opposes(lower, xs[at[i]], c))
    && (forall i, j | 0 <= i < j < |at| :: at[i] < at[j])
    && forall k | 0 <= k < |xs| && Opposes(lower, xs[k], c) :: k in at
  }

  lemma {:induction false} ConflictsAppend(norm: Norm, xs: seq<Candidate>, x: Candidate, c: Candidate)
    ensures Conflicts(norm, xs + [x], c) == Conflicts(norm, xs, c) + if Contradicts(norm, x, c) then [x] else []
  {
    hide Contradicts;
    if xs == [] {
      assert [] + [x] == [x] && [x][1..] == [];
    } else {
      ConflictsAppend(norm, xs[1..], x, c);
      assert (xs + [x])[1..] == xs[1..] + [x];
    }
  }

  lemma PlacesOneMore(lower: char -> string, xs: seq<Candidate>, x: Candidate, c: Candidate, at: seq<int>)
    requires PlacesOpposed(lower, xs, c, at)
    ensures PlacesOpposed(lower, xs + [x], c, if Opposes(lower, x, c) then at + [|xs|] else at)
  {
    hide Opposes;
    var all, more := xs + [x], if Opposes(lower, x, c) then at + [|xs|] else at;
    forall k | 0 <= k < |all| && Opposes(lower, all[k], c) ensures k in more {
      if k < |xs| { assert all[k] == xs[k] && k in at; } else { assert more[|at|] == k; }
    }
  }

  /** The elements of `xs` at these places. */
  predicate Picks(ys: seq<Candidate>, xs: seq<Candidate>, at: seq<int>) {
    |at| == |ys| && forall i | 0 <= i < |at| :: 0 <= at[i] < |xs| && ys[i] == xs[at[i]]
  }

  lemma PicksOneMore(ys: seq<Candidate>, xs: seq<Candidate>, x: Candidate, at: seq<int>)
    requires Picks(ys, xs, at)
    ensures Picks(ys + [x], xs + [x], at + [|xs|]) && Picks(ys + [], xs + [x], at)
  {
    assert ys + [] == ys;
  }

  lemma NoPlaces(lower: char -> string, c: Candidate)
    ensures PlacesOpposed(lower, [], c, []) && Picks(Conflicts(Normalizing(lower), [], c), [], [])
  {
  }

  lemma {:induction false} ConflictsAt(lower: char -> string, xs: seq<Candidate>, c: Candidate) returns (at: seq<int>)
    ensures PlacesOpposed(lower, xs, c, at) && Picks(Conflicts(Normalizing(lower), xs, c), xs, at)
  {
    hide Contradicts, Opposes, Conflicts, PlacesOpposed, Picks;
    at := [];
    if xs == [] {
      NoPlaces(lower, c);
    } else {
      var n := |xs| - 1;
      var front, x := xs[..n], xs[n];
      at := ConflictsAt(lower, front, c);
      assert xs == front + [x];
      PlacesOneMore(lower, front, x, c, at);
      PicksOneMore(Conflicts(Normalizing(lower), front, c), front, x, at);
      ConflictsAppend(Normalizing(lower), front, x, c);
      ContradictsIffOpposes(lower, x, c);
      if Opposes(lower, x, c) { at := at + [n]; }
    }
  }

  /**
   A claim qualifies memory exactly when no experience rephrases it and some oppose it; those are its
   conflicts, all of them and in memory order, and the first of them is the target.
   */
  lemma QualifiesIffOpposed(lower: char -> string, c: Candidate, s: Snapshot) returns (at: seq<int>)
    ensures PlacesOpposed(lower, s.experiences, c, at)
    ensures var r := Proposal(Normalizing(lower), c, s);
      var known := exists x | x in s.experiences :: Rephrases(lower, x, c);
      && (r.operation == Qualify <==> !known && exists x | x in s.experiences :: Opposes(lower, x, c))
      && (r.operation == Add <==> !known && !exists x | x in s.experiences :: Opposes(lower, x, c))
      && |r.conflictsWith| == |at|
      && (forall i | 0 <= i < |at| :: r.conflictsWith[i] == s.experiences[at[i]].id)
      && (r.operation == Qualify ==> at != [] && r.target == Some(s.experiences[at[0]].id))
      && (r.operation != Qualify ==> r.target == None)
  {
    hide Rephrases, SignatureOf, Contradicts, Merged, Opposes, Remembers;
    at := ConflictsAt(lower, s.experiences, c);
    NoChangeIffRephrased(lower, c, s);
    var conflicts := Conflicts(Normalizing(lower), s.experiences, c);
    if conflicts != [] {
      assert s.experiences[at[0]] in s.experiences;
    }
    if x :| x in s.experiences && Opposes(lower, x, c) {
      var k :| 0 <= k < |s.experiences| && s.experiences[k] == x;
      assert k in at;
    }
  }

  /** What a proposal is cut out of and says besides: its claim, its memories, its scope and its reason. */
  lemma ProposalRecords(norm: Norm, c: Candidate, s: Snapshot)
    ensures var r := Proposal(norm, c, s);
      && r.tenant == s.tenant && r.domain == s.domain && r.binding == s.binding && r.parent == s.Hash()
      && r.id == RevisionId(OfCandidate(c), r.parent, r.proposed, r.operation)
      && r.proposed == OfSnapshot(s.tenant, s.domain, s.binding,
           if r.operation == NoChange then s.experiences else s.experiences + [c.(status := Reconciled)])
      && (r.rationale == DUPLICATE <==> r.operation == NoChange)
      && (r.rationale == BOUNDED <==> r.operation == Qualify)
      && (r.rationale == SCOPED <==> r.operation == Add)
  {
    hide SignatureOf, Contradicts;
    assert DUPLICATE[0] == 'E' && BOUNDED[0] == 'C' && SCOPED[0] == 'N';
  }

  // --- Freezing the batch one revision at a time ------------------------------------------

  /** Memory served under its own hash. */
  function Serving(s: Snapshot, artifactId: Id): Worker.Active { Worker.Active(s, artifactId, s.Hash()) }

  /**
   Freezing and activating the memory-changing revisions in order goes through the very memories
   the batch went through: both of the worker's guards hold at every step.
   */
  lemma StepwiseFreezing(norm: Norm, cs: seq<Candidate>, s: Snapshot, i: nat, artifactId: Id)
    requires i < |cs|
    ensures var r, before, after := Proposals(norm, cs, s)[i], MergedAll(norm, cs[..i], s), MergedAll(norm, cs[..i + 1], s);
      && (r.operation == NoChange ==> after == before)
      && (r.operation != NoChange ==>
            && r.candidateIds == Ids([cs[i]])
            && Worker.Guarded(Serving(before, artifactId), r, [cs[i]])
            && Worker.Updated(Serving(before, artifactId), [cs[i]]) == after)
  {
    MergedOneMore(norm, cs, s, i);
    assert AllReconciled([cs[i]]) == [AsReconciled(cs[i])];
    assert Ids([cs[i]]) == [cs[i].id];
  }

  /** Memory after freezing and activating each memory-changing revision that passes both guards. */
  function FrozenAll(rs: seq<Revision>, cs: seq<Candidate>, s: Snapshot, artifactId: Id): Snapshot
    requires |rs| == |cs|
  {
    if rs == [] then s
    else
      var n := |rs| - 1;
      var before := FrozenAll(rs[..n], cs[..n], s, artifactId);
      var active := Serving(before, artifactId);
      if rs[n].operation != NoChange && Worker.Guarded(active, rs[n], [cs[n]]) then Worker.Updated(active, [cs[n]])
      else before
  }

  /** Stepwise freezing refines batch reconciliation: it ends at exactly the snapshot the batch returned. */
  lemma {:induction false} FreezingRefinesBatch(norm: Norm, cs: seq<Candidate>, s: Snapshot, artifactId: Id)
    ensures FrozenAll(Proposals(norm, cs, s), cs, s, artifactId) == MergedAll(norm, cs, s)
  {
    hide Proposal, Merged, Worker.Guarded, Worker.Updated, AllReconciled;
    if cs != [] {
      var n := |cs| - 1;
      FreezingRefinesBatch(norm, cs[..n], s, artifactId);
      ProposalsPrefix(norm, cs, s);
      StepwiseFreezing(norm, cs, s, n, artifactId);
      assert cs[..n + 1] == cs;
    }
  }

  /** Against any one active memory, at most one memory-changing revision of a batch passes the guards. */
  lemma AtMostOneIsFrozen(norm: Norm, cs: seq<Candidate>, s: Snapshot, active: Worker.Active, i: nat, j: nat)
    requires i < |cs| && j < |cs|
    requires var rs := Proposals(norm, cs, s);
      && rs[i].operation != NoChange && rs[j].operation != NoChange
      && Worker.Guarded(active, rs[i], [cs[i]]) && Worker.Guarded(active, rs[j], [cs[j]])
    ensures i == j
  {
    if i < j { OneChangePerMemory(norm, cs, s, i, j); }
    if j < i { OneChangePerMemory(norm, cs, s, j, i); }
  }
}
