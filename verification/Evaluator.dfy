/**
 Independent evaluation of a memory revision over a dataset of cases.

 The success and negative-transfer rates share one denominator, so they are compared
 through their counters: `negative_transfer > 0.01` is `100 * k > max(1, n)`.
 */
module Evaluator {
  import opened Sequences
  import opened Records

  // Each concern as its opening words and the rest: by its opening a concern is told from a sealed claim.
  const NO_SUPPORT := "No independent case" + " directly supports the candidate experience."
  const UNSUPPORTED_CAUSE := "A causal claim" + " lacks independent mechanism or intervention support."
  const OUT_OF_SCOPE := "Evaluation dataset" + " contains records outside the candidate scope."
  const BELOW_PARENT := "Candidate task success" + " is below the frozen parent memory."
  const NEGATIVE_TRANSFER := "Negative transfer" + " exceeds the one-percent safety bound."
  const COUNTEREXAMPLES := "Counterexamples" + " require an explicit boundary or qualification."

  predicate InScope(c: Case, tenant: string, domain: string) {
    c.tenant == tenant && c.domain == domain
  }

  function Bit(b: bool): nat { if b then 1 else 0 }

  function Plus(t: Tally, c: Case, tenant: string, domain: string): Tally {
    if !InScope(c, tenant, domain) then t.(outOfScope := t.outOfScope + 1)
    else Tally(
      t.outOfScope, t.inScope + 1,
      t.support + Bit(c.supports), t.counterexamples + Bit(c.counterexample),
      t.candidateWins + Bit(c.candidateSucceeded), t.parentWins + Bit(c.parentSucceeded),
      t.negativeTransfers + Bit(c.negativeTransfer), t.mechanism || c.mechanismVerified)
  }

  function TallyOf(cases: seq<Case>, tenant: string, domain: string): Tally {
    if cases == [] then Tally(0, 0, 0, 0, 0, 0, 0, false)
    else Plus(TallyOf(cases[..|cases| - 1], tenant, domain), cases[|cases| - 1], tenant, domain)
  }

  function UnsupportedCausal(candidates: seq<Candidate>, mechanism: bool): (n: nat)
    ensures n == 0 <==> mechanism || forall c | c in candidates :: c.causal == ObservedAssociation
  {
    if candidates == [] then 0
    else
      assert candidates == [candidates[0]] + candidates[1..];
      Bit(candidates[0].causal != ObservedAssociation && !mechanism)
      + UnsupportedCausal(candidates[1..], mechanism)
  }

  predicate Unsafe(t: Tally) {
    t.outOfScope > 0 || t.candidateWins < t.parentWins || 100 * t.negativeTransfers > AtLeastOne(t.inScope)
  }

  predicate Incomplete(t: Tally, unsupported: nat) {
    t.support == 0 || unsupported > 0 || t.counterexamples > 0
  }

  function DecisionOf(t: Tally, unsupported: nat): Decision {
    if Unsafe(t) then Rejected else if Incomplete(t, unsupported) then NeedsExperiment else Accepted
  }

  function ConcernIf(b: bool, text: string): seq<string> { if b then [text] else [] }

  function ConcernsOf(t: Tally, unsupported: nat): seq<string> {
    ConcernIf(t.support == 0, NO_SUPPORT)
    + ConcernIf(unsupported > 0, UNSUPPORTED_CAUSE)
    + ConcernIf(t.outOfScope > 0, OUT_OF_SCOPE)
    + ConcernIf(t.candidateWins < t.parentWins, BELOW_PARENT)
    + ConcernIf(100 * t.negativeTransfers > AtLeastOne(t.inScope), NEGATIVE_TRANSFER)
    + ConcernIf(t.counterexamples > 0, COUNTEREXAMPLES)
  }

  function Relevant(candidates: seq<Candidate>, ids: seq<Id>): (r: seq<Candidate>)
    ensures forall c :: c in r <==> c in candidates && c.id in ids
    ensures (forall c | c in candidates :: c.id in ids) ==> r == candidates
  {
    if candidates == [] then []
    else
      assert candidates == [candidates[0]] + candidates[1..];
      var rest := Relevant(candidates[1..], ids);
      if candidates[0].id in ids then [candidates[0]] + rest else rest
  }

  /** The handoff a dictionary keyed by id keeps: the last one listed. */
  function Keeper(handoffs: seq<Handoff>, id: string): (r: Option<Handoff>)
    ensures r.None? <==> forall h | h in handoffs :: h.id != id
    ensures r.Some? ==> r.value in handoffs && r.value.id == id
  {
    if handoffs == [] then None
    else
      var n := |handoffs| - 1;
      assert handoffs == handoffs[..n] + [handoffs[n]];
      if handoffs[n].id == id then Some(handoffs[n]) else Keeper(handoffs[..n], id)
  }

  function ReportedAt(h: Handoff): int { h.createdAt }

  predicate Releasable(relevant: seq<Candidate>, sources: seq<Handoff>) {
    && relevant != []
    && forall c | c in relevant ::
         var k := Keeper(sources, c.handoffId);
         k.Some? && k.value.eligible && k.value.mode == SameSession
  }

  /** The checks that make `evaluate` raise, all of them about identity and scope. */
  predicate Evaluable(r: Revision, candidates: seq<Candidate>, cases: seq<Case>, sources: seq<Handoff>) {
    var relevant := Relevant(candidates, r.candidateIds);
    && cases != [] && sources != []
    && (r.operation == NoChange || |relevant| == |r.candidateIds|)
    && (forall c | c in relevant :: c.tenant == r.tenant && c.domain == r.domain)
    && (forall c | c in relevant :: Keeper(sources, c.handoffId).Some?)
    && (forall h | h in sources && Keeper(sources, h.id) == Some(h) :: h.tenant == r.tenant && h.domain == r.domain)
  }

  function Evaluate(r: Revision, candidates: seq<Candidate>, cases: seq<Case>, sources: seq<Handoff>): Result<Evaluation> {
    if !Evaluable(r, candidates, cases, sources) then Raised
    else
      var relevant := Relevant(candidates, r.candidateIds);
      var t := TallyOf(cases, r.tenant, r.domain);
      var unsupported := UnsupportedCausal(relevant, t.mechanism);
      var decision := DecisionOf(t, unsupported);
      Ok(Evaluation(
        EvaluationId(OfRevision(r), OfDataset(cases), OfBundle), r.id, r.tenant, r.domain,
        OfBundle, OfDataset(cases), t, |cases|, unsupported, decision, ConcernsOf(t, unsupported),
        r.operation != NoChange && decision == Accepted && Releasable(relevant, sources),
        Greatest(ReportedAt, sources)))
  }

  /** The list of concerns as it is built, one append at a time. */
  method ListConcerns(t: Tally, unsupported: nat) returns (concerns: seq<string>)
    ensures concerns == ConcernsOf(t, unsupported)
  {
    concerns := [];
    if t.support == 0 { concerns := concerns + [NO_SUPPORT]; }
    if unsupported > 0 { concerns := concerns + [UNSUPPORTED_CAUSE]; }
    assert concerns == ConcernIf(t.support == 0, NO_SUPPORT) + ConcernIf(unsupported > 0, UNSUPPORTED_CAUSE);
    ghost var before := concerns;
    if t.outOfScope > 0 { concerns := concerns + [OUT_OF_SCOPE]; }
    assert concerns == before + ConcernIf(t.outOfScope > 0, OUT_OF_SCOPE);
    before := concerns;
    if t.candidateWins < t.parentWins { concerns := concerns + [BELOW_PARENT]; }
    assert concerns == before + ConcernIf(t.candidateWins < t.parentWins, BELOW_PARENT);
    before := concerns;
    if 100 * t.negativeTransfers > AtLeastOne(t.inScope) { concerns := concerns + [NEGATIVE_TRANSFER]; }
    assert concerns == before + ConcernIf(100 * t.negativeTransfers > AtLeastOne(t.inScope), NEGATIVE_TRANSFER);
    before := concerns;
    if t.counterexamples > 0 { concerns := concerns + [COUNTEREXAMPLES]; }
    assert concerns == before + ConcernIf(t.counterexamples > 0, COUNTEREXAMPLES);
  }

  // --- What the counters mean -------------------------------------------------------------

  ghost function Where(cases: seq<Case>, p: Case -> bool): set<int> {
    set i | 0 <= i < |cases| && p(cases[i])
  }

  lemma WhereGrows(cases: seq<Case>, p: Case -> bool)
    requires cases != []
    ensures |Where(cases, p)| == |Where(cases[..|cases| - 1], p)| + Bit(p(cases[|cases| - 1]))
  {
    var n := |cases| - 1;
    var before := Where(cases[..n], p);
    assert Where(cases, p) == if p(cases[n]) then before + {n} else before;
  }

  /** Each counter is the number of dataset positions with the property it is named after. */
  lemma {:induction false} TallyCounts(cases: seq<Case>, tenant: string, domain: string)
    ensures var t := TallyOf(cases, tenant, domain);
      && t.outOfScope == |Where(cases, c => !InScope(c, tenant, domain))|
      && t.inScope == |Where(cases, c => InScope(c, tenant, domain))|
      && t.support == |Where(cases, c => InScope(c, tenant, domain) && c.supports)|
      && t.counterexamples == |Where(cases, c => InScope(c, tenant, domain) && c.counterexample)|
      && t.candidateWins == |Where(cases, c => InScope(c, tenant, domain) && c.candidateSucceeded)|
      && t.parentWins == |Where(cases, c => InScope(c, tenant, domain) && c.parentSucceeded)|
      && t.negativeTransfers == |Where(cases, c => InScope(c, tenant, domain) && c.negativeTransfer)|
      && (t.mechanism <==> exists c | c in cases :: InScope(c, tenant, domain) && c.mechanismVerified)
  {
    if cases != [] {
      var n := |cases| - 1;
      TallyCounts(cases[..n], tenant, domain);
      assert cases == cases[..n] + [cases[n]];
      WhereGrows(cases, c => !InScope(c, tenant, domain));
      WhereGrows(cases, c => InScope(c, tenant, domain));
      WhereGrows(cases, c => InScope(c, tenant, domain) && c.supports);
      WhereGrows(cases, c => InScope(c, tenant, domain) && c.counterexample);
      WhereGrows(cases, c => InScope(c, tenant, domain) && c.candidateSucceeded);
      WhereGrows(cases, c => InScope(c, tenant, domain) && c.parentSucceeded);
      WhereGrows(cases, c => InScope(c, tenant, domain) && c.negativeTransfer);
    }
  }

  lemma PlusCommutes(t: Tally, a: Case, b: Case, tenant: string, domain: string)
    ensures Plus(Plus(t, a, tenant, domain), b, tenant, domain) == Plus(Plus(t, b, tenant, domain), a, tenant, domain)
  {
    hide Bit, InScope;
    if InScope(a, tenant, domain) && InScope(b, tenant, domain) {
      BothInScope(t, a, b, tenant, domain);
    } else if InScope(a, tenant, domain) {
    } else if InScope(b, tenant, domain) {
    }
  }

  lemma BothInScope(t: Tally, a: Case, b: Case, tenant: string, domain: string)
    requires InScope(a, tenant, domain) && InScope(b, tenant, domain)
    ensures Plus(Plus(t, a, tenant, domain), b, tenant, domain) == Plus(Plus(t, b, tenant, domain), a, tenant, domain)
  {
    hide Bit, InScope;
  }

  lemma TallyAppend(cases: seq<Case>, c: Case, tenant: string, domain: string)
    ensures TallyOf(cases + [c], tenant, domain) == Plus(TallyOf(cases, tenant, domain), c, tenant, domain)
  {
    assert (cases + [c])[..|cases|] == cases;
  }

  /** Removing the case at `k` and counting it last changes nothing. */
  lemma {:induction false} TallyRemove(cases: seq<Case>, k: nat, tenant: string, domain: string)
    requires k < |cases|
    ensures TallyOf(cases, tenant, domain)
         == Plus(TallyOf(cases[..k] + cases[k + 1..], tenant, domain), cases[k], tenant, domain)
  {
    hide Plus, TallyOf;
    var n := |cases| - 1;
    var front := cases[..n];
    assert cases == front + [cases[n]];
    TallyAppend(front, cases[n], tenant, domain);
    if k == n {
      assert cases[..k] + cases[k + 1..] == front;
    } else {
      var inner := front[..k] + front[k + 1..];
      TallyRemove(front, k, tenant, domain);
      assert cases[..k] + cases[k + 1..] == inner + [cases[n]];
      TallyAppend(inner, cases[n], tenant, domain);
      PlusCommutes(TallyOf(inner, tenant, domain), cases[k], cases[n], tenant, domain);
    }
  }

  lemma {:induction false} TallyPermutation(a: seq<Case>, b: seq<Case>, tenant: string, domain: string)
    requires multiset(a) == multiset(b)
    ensures TallyOf(a, tenant, domain) == TallyOf(b, tenant, domain)
  {
    hide Plus;
    if a == [] {
      assert |multiset(b)| == 0;
    } else {
      var n := |a| - 1;
      assert a[n] in multiset(a);
      assert a[n] in b;
      var k := TakeOut(b, a[n]);
      assert a == a[..n] + [a[n]];
      TallyPermutation(a[..n], b[..k] + b[k + 1..], tenant, domain);
      TallyRemove(b, k, tenant, domain);
    }
  }

  // --- The verdict ------------------------------------------------------------------------

  /** An unsafe dataset: foreign cases, fewer successes than the parent memory, or over one percent negative transfer. */
  ghost predicate UnsafeCases(cases: seq<Case>, r: Revision) {
    || (exists c | c in cases :: !InScope(c, r.tenant, r.domain))
    || |Where(cases, c => InScope(c, r.tenant, r.domain) && c.candidateSucceeded)|
       < |Where(cases, c => InScope(c, r.tenant, r.domain) && c.parentSucceeded)|
    || 100 * |Where(cases, c => InScope(c, r.tenant, r.domain) && c.negativeTransfer)|
       > (var n := |Where(cases, c => InScope(c, r.tenant, r.domain))|; if n == 0 then 1 else n)
  }

  /** Something in scope supports the claim, nothing speaks against it, and causes have a verified mechanism. */
  ghost predicate CompleteCases(cases: seq<Case>, r: Revision, candidates: seq<Candidate>) {
    && (exists c | c in cases :: InScope(c, r.tenant, r.domain) && c.supports)
    && (forall c | c in cases && InScope(c, r.tenant, r.domain) :: !c.counterexample)
    && ((forall c | c in candidates && c.id in r.candidateIds :: c.causal == ObservedAssociation)
        || exists c | c in cases :: InScope(c, r.tenant, r.domain) && c.mechanismVerified)
  }

  lemma SomewhereIff(cases: seq<Case>, p: Case -> bool)
    ensures |Where(cases, p)| > 0 <==> exists c | c in cases :: p(c)
  {
    if c :| c in cases && p(c) {
      var i :| 0 <= i < |cases| && cases[i] == c;
      assert i in Where(cases, p);
    }
    if |Where(cases, p)| > 0 { var i :| i in Where(cases, p); }
  }

  /** Counters as presence. */
  lemma TallyPresence(cases: seq<Case>, r: Revision)
    ensures var t := TallyOf(cases, r.tenant, r.domain);
      && (t.outOfScope > 0 <==> exists c | c in cases :: !InScope(c, r.tenant, r.domain))
      && (t.support > 0 <==> exists c | c in cases :: InScope(c, r.tenant, r.domain) && c.supports)
      && (t.counterexamples > 0 <==> exists c | c in cases :: InScope(c, r.tenant, r.domain) && c.counterexample)
      && (t.mechanism <==> exists c | c in cases :: InScope(c, r.tenant, r.domain) && c.mechanismVerified)
  {
    hide TallyOf, Where;
    var tenant, domain := r.tenant, r.domain;
    TallyCounts(cases, tenant, domain);
    SomewhereIff(cases, c => !InScope(c, tenant, domain));
    SomewhereIff(cases, c => InScope(c, tenant, domain) && c.supports);
    SomewhereIff(cases, c => InScope(c, tenant, domain) && c.counterexample);
  }

  /** The decision over any dataset, in terms of its cases. */
  lemma DecisionMeans(r: Revision, candidates: seq<Candidate>, cases: seq<Case>, sources: seq<Handoff>)
    requires Evaluate(r, candidates, cases, sources).Ok?
    ensures var d := Evaluate(r, candidates, cases, sources).value.decision;
      && (d == Rejected <==> UnsafeCases(cases, r))
      && (d == Accepted <==> !UnsafeCases(cases, r) && CompleteCases(cases, r, candidates))
  {
    hide TallyOf, Greatest, Releasable, ConcernsOf, Where;
    TallyCounts(cases, r.tenant, r.domain);
    TallyPresence(cases, r);
  }

  /** One case of another tenant or another domain is counted as foreign, and rejects the claim. */
  lemma ForeignCaseRejects(r: Revision, candidates: seq<Candidate>, cases: seq<Case>, sources: seq<Handoff>)
    requires Evaluate(r, candidates, cases, sources).Ok?
    ensures var e := Evaluate(r, candidates, cases, sources).value;
      && (e.tally.outOfScope > 0 <==> exists c | c in cases :: c.tenant != r.tenant || c.domain != r.domain)
      && (e.tally.outOfScope > 0 ==> e.decision == Rejected)
      && e.tally.outOfScope + e.tally.inScope == |cases|
  {
    hide TallyOf, Evaluable, UnsupportedCausal, ConcernsOf, Releasable, Greatest;
    TallyPresence(cases, r);
    EachCaseCounts(cases, r.tenant, r.domain);
  }

  lemma {:induction false} EachCaseCounts(cases: seq<Case>, tenant: string, domain: string)
    ensures TallyOf(cases, tenant, domain).outOfScope + TallyOf(cases, tenant, domain).inScope == |cases|
  {
    if cases != [] { EachCaseCounts(cases[..|cases| - 1], tenant, domain); }
  }

  /** A verdict does not depend on the order of the cases; only the dataset digest does. */
  lemma OrderOfCasesIsIrrelevant(r: Revision, candidates: seq<Candidate>, a: seq<Case>, b: seq<Case>, sources: seq<Handoff>)
    requires multiset(a) == multiset(b)
    ensures var x, y := Evaluate(r, candidates, a, sources), Evaluate(r, candidates, b, sources);
      && (x.Ok? <==> y.Ok?)
      && (x.Ok? ==> y.value == x.value.(id := y.value.id, dataset := OfDataset(b)))
  {
    TallyPermutation(a, b, r.tenant, r.domain);
    assert |a| == |multiset(a)| == |multiset(b)| == |b|;
  }

  lemma NoConcernsIffAccepted(r: Revision, candidates: seq<Candidate>, cases: seq<Case>, sources: seq<Handoff>)
    requires Evaluate(r, candidates, cases, sources).Ok?
    ensures var e := Evaluate(r, candidates, cases, sources).value;
      e.concerns == [] <==> e.decision == Accepted
  {
    var t := TallyOf(cases, r.tenant, r.domain);
    var u := UnsupportedCausal(Relevant(candidates, r.candidateIds), t.mechanism);
    var c := ConcernsOf(t, u);
    assert |c| == Bit(t.support == 0) + Bit(u > 0) + Bit(t.outOfScope > 0) + Bit(t.candidateWins < t.parentWins)
      + Bit(100 * t.negativeTransfers > AtLeastOne(t.inScope)) + Bit(t.counterexamples > 0);
  }

  lemma EligibilityIsSafe(r: Revision, candidates: seq<Candidate>, cases: seq<Case>, sources: seq<Handoff>)
    requires Evaluate(r, candidates, cases, sources).Ok?
    ensures var e := Evaluate(r, candidates, cases, sources).value;
      && ValidEvaluation(e)
      && (e.eligible ==> forall c | c in candidates && c.id in r.candidateIds ::
            exists h | h in sources :: h.id == c.handoffId && h.eligible && h.mode == SameSession)
  {
    var relevant := Relevant(candidates, r.candidateIds);
    forall c | c in candidates && c.id in r.candidateIds && Releasable(relevant, sources)
      ensures exists h | h in sources :: h.id == c.handoffId && h.eligible && h.mode == SameSession
    {
      assert c in relevant;
    }
  }

  predicate ListedLast(sources: seq<Handoff>, id: string, k: int) {
    0 <= k < |sources| && sources[k].id == id && forall l | k < l < |sources| :: sources[l].id != id
  }

  /** The handoff listed last under this id is first-hand: of the author's own session, and eligible for promotion. */
  predicate FirstHand(sources: seq<Handoff>, id: string) {
    exists k | 0 <= k < |sources| :: ListedLast(sources, id, k) && sources[k].eligible && sources[k].mode == SameSession
  }

  lemma {:induction false} KeeperIsLast(sources: seq<Handoff>, id: string) returns (k: int)
    ensures if Keeper(sources, id).Some? then ListedLast(sources, id, k) && Keeper(sources, id).value == sources[k]
            else forall h | h in sources :: h.id != id
  {
    k := |sources| - 1;
    if sources != [] && sources[k].id != id { k := KeeperIsLast(sources[..k], id); }
  }

  lemma KeeperIsFirstHand(sources: seq<Handoff>, id: string)
    ensures var k := Keeper(sources, id);
      FirstHand(sources, id) <==> k.Some? && k.value.eligible && k.value.mode == SameSession
  {
    hide Keeper;
    var k := KeeperIsLast(sources, id);
  }

  /** A verdict is eligible for release exactly when it accepts claims that are all first-hand, and there is one. */
  lemma EligibleIff(r: Revision, candidates: seq<Candidate>, cases: seq<Case>, sources: seq<Handoff>)
    requires Evaluate(r, candidates, cases, sources).Ok?
    ensures var e := Evaluate(r, candidates, cases, sources).value;
      e.eligible <==>
        && r.operation != NoChange && e.decision == Accepted
        && (exists c | c in candidates :: c.id in r.candidateIds)
        && forall c | c in candidates && c.id in r.candidateIds :: FirstHand(sources, c.handoffId)
  {
    hide Evaluable, TallyOf, DecisionOf, ConcernsOf, Greatest, FirstHand;
    var relevant := Relevant(candidates, r.candidateIds);
    if relevant != [] { assert relevant[0] in relevant; }
    forall c | c in relevant
      ensures FirstHand(sources, c.handoffId) <==>
        var k := Keeper(sources, c.handoffId); k.Some? && k.value.eligible && k.value.mode == SameSession
    {
      KeeperIsFirstHand(sources, c.handoffId);
    }
  }

  /** The candidates a revision names that claim more than an association, by their places in the list. */
  ghost function Causal(candidates: seq<Candidate>, ids: seq<Id>): set<int> {
    set i | 0 <= i < |candidates| && candidates[i].id in ids && candidates[i].causal != ObservedAssociation
  }

  lemma {:induction false} RelevantAppend(cs: seq<Candidate>, c: Candidate, ids: seq<Id>)
    ensures Relevant(cs + [c], ids) == Relevant(cs, ids) + if c.id in ids then [c] else []
  {
    if cs == [] {
      assert [] + [c] == [c] && [c][1..] == [];
    } else {
      RelevantAppend(cs[1..], c, ids);
      assert (cs + [c])[1..] == cs[1..] + [c];
    }
  }

  lemma {:induction false} UnsupportedAppend(cs: seq<Candidate>, c: Candidate, mechanism: bool)
    ensures UnsupportedCausal(cs + [c], mechanism)
         == UnsupportedCausal(cs, mechanism) + Bit(c.causal != ObservedAssociation && !mechanism)
  {
    if cs == [] {
      assert [] + [c] == [c] && [c][1..] == [];
    } else {
      UnsupportedAppend(cs[1..], c, mechanism);
      assert (cs + [c])[1..] == cs[1..] + [c];
    }
  }

  lemma CausalGrows(cs: seq<Candidate>, c: Candidate, ids: seq<Id>)
    ensures |Causal(cs + [c], ids)| == |Causal(cs, ids)| + Bit(c.id in ids && c.causal != ObservedAssociation)
  {
    var before := Causal(cs, ids);
    assert Causal(cs + [c], ids) == if c.id in ids && c.causal != ObservedAssociation then before + {|cs|} else before;
  }

  lemma {:induction false} UnsupportedCounts(candidates: seq<Candidate>, ids: seq<Id>, mechanism: bool)
    ensures UnsupportedCausal(Relevant(candidates, ids), mechanism) == if mechanism then 0 else |Causal(candidates, ids)|
  {
    if candidates == [] {
      assert Causal(candidates, ids) == {};
    } else {
      hide Relevant, UnsupportedCausal, Causal;
      var n := |candidates| - 1;
      var front, c := candidates[..n], candidates[n];
      UnsupportedCounts(front, ids, mechanism);
      assert candidates == front + [c];
      RelevantAppend(front, c, ids);
      assert Relevant(front, ids) + [] == Relevant(front, ids);
      UnsupportedAppend(Relevant(front, ids), c, mechanism);
      CausalGrows(front, c, ids);
    }
  }

  /** The rest of a verdict: whom it judges, over what, how many causes are unsupported, and when. */
  lemma VerdictRecords(r: Revision, candidates: seq<Candidate>, cases: seq<Case>, sources: seq<Handoff>)
    requires Evaluate(r, candidates, cases, sources).Ok?
    ensures var e := Evaluate(r, candidates, cases, sources).value;
      && e.revisionId == r.id && e.tenant == r.tenant && e.domain == r.domain
      && e.dataset == OfDataset(cases) && e.regressionCases == |cases|
      && e.unsupportedCausal == (if exists c | c in cases :: InScope(c, r.tenant, r.domain) && c.mechanismVerified
                                 then 0 else |Causal(candidates, r.candidateIds)|)
      && (forall h | h in sources :: h.createdAt <= e.evaluatedAt)
      && exists h | h in sources :: h.createdAt == e.evaluatedAt
  {
    hide Evaluable, TallyOf, DecisionOf, ConcernsOf, Releasable, UnsupportedCausal, Causal;
    TallyPresence(cases, r);
    UnsupportedCounts(candidates, r.candidateIds, TallyOf(cases, r.tenant, r.domain).mechanism);
    assert forall i | 0 <= i < |sources| :: ReportedAt(sources[i]) == sources[i].createdAt && sources[i] in sources;
  }

  /** The candidates a revision names, by their places in the list. */
  ghost function Named(candidates: seq<Candidate>, ids: seq<Id>): set<int> {
    set i | 0 <= i < |candidates| && candidates[i].id in ids
  }

  lemma {:induction false} RelevantCounts(candidates: seq<Candidate>, ids: seq<Id>)
    ensures |Relevant(candidates, ids)| == |Named(candidates, ids)|
  {
    if candidates == [] {
      assert Named(candidates, ids) == {};
    } else {
      hide Relevant, Named;
      var n := |candidates| - 1;
      var front, c := candidates[..n], candidates[n];
      RelevantCounts(front, ids);
      assert candidates == front + [c];
      RelevantAppend(front, c, ids);
      NamedGrows(front, c, ids);
    }
  }

  lemma NamedGrows(cs: seq<Candidate>, c: Candidate, ids: seq<Id>)
    ensures |Named(cs + [c], ids)| == |Named(cs, ids)| + Bit(c.id in ids)
  {
    var before := Named(cs, ids);
    assert Named(cs + [c], ids) == if c.id in ids then before + {|cs|} else before;
  }

  /** A handoff that no later one of the same id replaces. */
  predicate Stands(sources: seq<Handoff>, h: Handoff) {
    exists k | 0 <= k < |sources| :: sources[k] == h && ListedLast(sources, h.id, k)
  }

  lemma StandsIff(sources: seq<Handoff>, h: Handoff)
    ensures Stands(sources, h) <==> h in sources && Keeper(sources, h.id) == Some(h)
  {
    hide Keeper;
    var k := KeeperIsLast(sources, h.id);
    if Stands(sources, h) {
      var j :| 0 <= j < |sources| && sources[j] == h && ListedLast(sources, h.id, j);
      assert j == k;
    }
  }

  /**
   A verdict is given exactly on some cases and some handoffs, with a candidate for each the revision names, all of the
   revision's scope and each with its handoff, and with standing handoffs of that scope.
   */
  lemma EvaluatesIff(r: Revision, candidates: seq<Candidate>, cases: seq<Case>, sources: seq<Handoff>)
    ensures Evaluate(r, candidates, cases, sources).Ok? <==>
      && cases != [] && sources != []
      && (r.operation != NoChange ==> |Named(candidates, r.candidateIds)| == |r.candidateIds|)
      && (forall c | c in candidates && c.id in r.candidateIds ::
            c.tenant == r.tenant && c.domain == r.domain && exists h | h in sources :: h.id == c.handoffId)
      && (forall h | Stands(sources, h) :: h.tenant == r.tenant && h.domain == r.domain)
  {
    hide Keeper, Relevant, Named, Stands, TallyOf, DecisionOf, ConcernsOf, Releasable, Greatest, UnsupportedCausal;
    RelevantCounts(candidates, r.candidateIds);
    forall h ensures Stands(sources, h) <==> h in sources && Keeper(sources, h.id) == Some(h) { StandsIff(sources, h); }
    assert forall c | c in Relevant(candidates, r.candidateIds) :: c in candidates && c.id in r.candidateIds;
    assert forall c | c in candidates && c.id in r.candidateIds :: c in Relevant(candidates, r.candidateIds);
  }

  /** One more in-scope success that supports the claim and transfers nothing bad keeps an acceptance. */
  lemma CleanSupportKeepsAcceptance(
      r: Revision, candidates: seq<Candidate>, cases: seq<Case>, sources: seq<Handoff>, extra: Case)
    requires Evaluate(r, candidates, cases, sources).Ok?
    requires Evaluate(r, candidates, cases, sources).value.decision == Accepted
    requires InScope(extra, r.tenant, r.domain) && extra.supports && extra.candidateSucceeded
    requires !extra.counterexample && !extra.negativeTransfer
    ensures Evaluate(r, candidates, cases + [extra], sources).Ok?
    ensures Evaluate(r, candidates, cases + [extra], sources).value.decision == Accepted
  {
    assert (cases + [extra])[..|cases|] == cases;
    var relevant := Relevant(candidates, r.candidateIds);
    var t := TallyOf(cases, r.tenant, r.domain);
    assert TallyOf(cases + [extra], r.tenant, r.domain) == Plus(t, extra, r.tenant, r.domain);
    assert UnsupportedCausal(relevant, t.mechanism) == 0;
  }

  // --- Practice datasets ------------------------------------------------------------------

  /** The case a completed practice run contributes. */
  function PracticeCase(x: PracticeRun): Case {
    var passed := x.verdict == Some(Pass);
    Case(x.id, x.tenant, x.domain, passed, !passed, true, passed, !passed, false)
  }

  function PracticeCases(runs: seq<PracticeRun>): (cases: seq<Case>)
    ensures |cases| == |runs| && forall i | 0 <= i < |runs| :: cases[i] == PracticeCase(runs[i])
  {
    seq(|runs|, i requires 0 <= i < |runs| => PracticeCase(runs[i]))
  }

  lemma {:induction false} PracticeTally(runs: seq<PracticeRun>, tenant: string, domain: string)
    requires forall x | x in runs :: x.tenant == tenant && x.domain == domain
    ensures var t := TallyOf(PracticeCases(runs), tenant, domain);
      && t.outOfScope == 0 && t.inScope == |runs| == t.parentWins && !t.mechanism
      && t.support == t.candidateWins == |runs| - t.negativeTransfers
      && t.counterexamples == t.negativeTransfers
      && (t.negativeTransfers == 0 <==> forall x | x in runs :: x.verdict == Some(Pass))
      && (t.support == 0 <==> forall x | x in runs :: x.verdict != Some(Pass))
  {
    if runs != [] {
      var n := |runs| - 1;
      PracticeTally(runs[..n], tenant, domain);
      assert PracticeCases(runs)[..n] == PracticeCases(runs[..n]);
      assert runs == runs[..n] + [runs[n]];
    }
  }

  /** On the result of a practised plan the verdict is read off the runs and the kind of claim. */
  lemma PracticeVerdict(r: Revision, candidates: seq<Candidate>, runs: seq<PracticeRun>, sources: seq<Handoff>)
    requires runs != [] && forall x | x in runs :: x.tenant == r.tenant && x.domain == r.domain
    requires Evaluate(r, candidates, PracticeCases(runs), sources).Ok?
    ensures
      var d := Evaluate(r, candidates, PracticeCases(runs), sources).value.decision;
      var passed := forall x | x in runs :: x.verdict == Some(Pass);
      var associational := forall c | c in candidates && c.id in r.candidateIds :: c.causal == ObservedAssociation;
      && (d == Rejected <==> !passed)
      && (d == NeedsExperiment <==> passed && !associational)
      && (d == Accepted <==> passed && associational)
  {
    PracticeTally(runs, r.tenant, r.domain);
    var relevant := Relevant(candidates, r.candidateIds);
    assert (forall c | c in relevant :: c.causal == ObservedAssociation)
      <==> forall c | c in candidates && c.id in r.candidateIds :: c.causal == ObservedAssociation;
  }
}
