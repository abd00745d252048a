/**
 Drafting and applying edits to memory files.

 A draft remembers the content it was made from by its hash, which is symbolic here: the hash
 of a text is that text under a constructor. The words for relative dates are replaced
 when a draft is made and again when it is applied.
 */
module Memory {
  import opened Sequences
  import opened Normalization
  import opened JsonStore

  // --- Relative dates ---------------------------------------------------------------------

  /** Python's `str.replace`: every occurrence, from the left, never looking inside what was put in. */
  function Replaced(s: string, from: string, to: string): string
    requires from != ""
    decreases |s|
  {
    if s == "" then ""
    else if from <= s then to + Replaced(s[|from|..], from, to)
    else [s[0]] + Replaced(s[1..], from, to)
  }

  predicate Contains(s: string, w: string) { exists i | 0 <= i <= |s| :: w <= s[i..] }

  const WORDS := ["yesterday", "Yesterday", "today", "Today", "tomorrow", "Tomorrow"]

  /** What each word becomes on a given day. */
  function Meaning(today: string): (r: seq<string>)
    ensures |r| == 6
  {
    var before, after := "the day before " + today, "the day after " + today;
    [before, before, today, today, after, after]
  }

  /** The first `k` replacements. */
  function Rewritten(s: string, today: string, k: nat): string
    requires k <= 6
  {
    if k == 0 then s else Replaced(Rewritten(s, today, k - 1), WORDS[k - 1], Meaning(today)[k - 1])
  }

  function Dated(s: string, today: string): string { Rewritten(s, today, 6) }

  method NormalizeRelativeDates(content: string, today: string) returns (normalized: string)
    ensures normalized == Dated(content, today)
  {
    normalized := content;
    for k := 0 to 6
      invariant normalized == Rewritten(content, today, k)
    {
      normalized := Replaced(normalized, WORDS[k], Meaning(today)[k]);
    }
  }

  /** A calendar date as ISO 8601 writes it: digits and hyphens. */
  predicate IsoDate(s: string) { s != "" && forall c | c in s :: c == '-' || '0' <= c <= '9' }

  /** The two texts differ somewhere both of them reach. */
  predicate Clash(a: string, b: string) { exists i | 0 <= i < |a| && i < |b| :: a[i] != b[i] }

  /** `to` neither completes a word begun before it nor begins or contains one. */
  predicate Neutral(w: string, to: string) {
    && (forall k | 1 <= k < |w| :: Clash(w[k..], to))
    && (forall p | 0 <= p < |to| :: Clash(w, to[p..]))
  }

  lemma ClashIsNoPrefix(a: string, b: string, rest: string)
    requires Clash(a, b)
    ensures !(a <= b + rest)
  {
    var i :| 0 <= i < |a| && i < |b| && a[i] != b[i];
    assert (b + rest)[i] == b[i];
  }

  lemma NotInside(w: string, to: string, rest: string, i: nat)
    requires i < |to| && Clash(w, to[i..])
    ensures !(w <= (to + rest)[i..])
  {
    assert (to + rest)[i..] == to[i..] + rest;
    ClashIsNoPrefix(w, to[i..], rest);
  }

  /** The tail of a word stands at the front of the result only if it stood at the front before. */
  lemma {:induction false} TailSurvives(s: string, from: string, to: string, w: string, k: nat)
    requires from != "" && 1 <= k <= |w| && forall j | k <= j < |w| :: Clash(w[j..], to)
    ensures w[k..] <= Replaced(s, from, to) ==> w[k..] <= s
    decreases |s|
  {
    if k < |w| && s != "" {
      if from <= s {
        ClashIsNoPrefix(w[k..], to, Replaced(s[|from|..], from, to));
      } else {
        TailSurvives(s[1..], from, to, w, k + 1);
        var r := Replaced(s[1..], from, to);
        if w[k..] <= [s[0]] + r {
          assert ([s[0]] + r)[1..] == r && w[k..][1..] == w[k + 1..];
          assert w[k..] == [w[k]] + w[k + 1..] && s == [s[0]] + s[1..];
        }
      }
    }
  }

  /** A replacement makes no new occurrence of a word its text is neutral to, and leaves none of the word it replaces. */
  lemma {:induction false} ReplacingAddsNone(s: string, from: string, to: string, w: string)
    requires from != "" && w != "" && Neutral(w, to)
    ensures Contains(Replaced(s, from, to), w) ==> w != from && Contains(s, w)
    decreases |s|
  {
    var r := Replaced(s, from, to);
    if s != "" && Contains(r, w) {
      var i :| 0 <= i <= |r| && w <= r[i..];
      if from <= s {
        FoundAfter(s, from, to, w, i);
      } else {
        FoundBeyond(s, from, to, w, i);
      }
    }
  }

  lemma FoundAfter(s: string, from: string, to: string, w: string, i: nat)
    requires from != "" && w != "" && Neutral(w, to) && s != "" && from <= s
    requires i <= |Replaced(s, from, to)| && w <= Replaced(s, from, to)[i..]
    ensures w != from && Contains(s, w)
    decreases |s|, 0
  {
    var rest := Replaced(s[|from|..], from, to);
    if i < |to| {
      NotInside(w, to, rest, i);
    } else {
      assert (to + rest)[i..] == rest[i - |to|..];
      ReplacingAddsNone(s[|from|..], from, to, w);
      assert Contains(rest, w);
      var j :| 0 <= j <= |s[|from|..]| && w <= s[|from|..][j..];
      assert s[|from|..][j..] == s[|from| + j..];
    }
  }

  lemma FoundBeyond(s: string, from: string, to: string, w: string, i: nat)
    requires from != "" && w != "" && Neutral(w, to) && s != "" && !(from <= s)
    requires i <= |Replaced(s, from, to)| && w <= Replaced(s, from, to)[i..]
    ensures w != from && Contains(s, w)
    decreases |s|, 0
  {
    var rest := Replaced(s[1..], from, to);
    if i == 0 {
      var r := [s[0]] + rest;
      assert r[0..] == r && r[1..] == rest;
      assert w[1..] <= rest;
      TailSurvives(s[1..], from, to, w, 1);
      assert w == [w[0]] + w[1..] && s == [s[0]] + s[1..];
      assert w <= s && s[0..] == s;
    } else {
      assert ([s[0]] + rest)[i..] == rest[i - 1..];
      ReplacingAddsNone(s[1..], from, to, w);
      assert Contains(rest, w);
      var j :| 0 <= j <= |s[1..]| && w <= s[1..][j..];
      assert s[1..][j..] == s[1 + j..];
    }
  }

  lemma {:induction false} NothingToReplace(s: string, from: string, to: string)
    requires from != "" && !Contains(s, from)
    ensures Replaced(s, from, to) == s
    decreases |s|
  {
    if s != "" {
      assert s[0..] == s;
      forall i | 0 <= i <= |s[1..]| ensures !(from <= s[1..][i..]) { assert s[1..][i..] == s[1 + i..]; }
      NothingToReplace(s[1..], from, to);
      assert s == [s[0]] + s[1..];
    }
  }

  /** Begins like none of the words: no "ye" or "to" in either case, and no letter at the end. */
  predicate PairFree(to: string) {
    && to != "" && (to[0] == 't' ==> |to| > 1 && to[1] == 'h')
    && !('a' <= to[|to| - 1] <= 'z') && !('A' <= to[|to| - 1] <= 'Z')
    && forall p | 0 <= p < |to| - 1 ::
         && !((to[p] == 'y' || to[p] == 'Y') && to[p + 1] == 'e')
         && !((to[p] == 't' || to[p] == 'T') && to[p + 1] == 'o')
  }

  /** How each word begins, and that a "t" inside it is followed by an "e". */
  lemma WordShape(m: nat)
    requires m < 6
    ensures var w := WORDS[m];
      && |w| >= 5
      && (((w[0] == 'y' || w[0] == 'Y') && w[1] == 'e') || ((w[0] == 't' || w[0] == 'T') && w[1] == 'o'))
      && forall k | 1 <= k < |w| :: 'a' <= w[k] <= 'z' && (w[k] == 't' ==> k + 1 < |w| && w[k + 1] == 'e')
  {
    assert WORDS[0] == "yesterday" && WORDS[1] == "Yesterday" && WORDS[2] == "today";
    assert WORDS[3] == "Today" && WORDS[4] == "tomorrow" && WORDS[5] == "Tomorrow";
  }

  lemma PairFreeIsNeutral(m: nat, to: string)
    requires m < 6 && PairFree(to) && (to[0] == 't' || !('a' <= to[0] <= 'z'))
    ensures Neutral(WORDS[m], to)
  {
    var w := WORDS[m];
    WordShape(m);
    forall k | 1 <= k < |w| ensures Clash(w[k..], to) {
      if w[k] == to[0] {
        assert w[k..][1] != to[1];
      } else {
        assert w[k..][0] != to[0];
      }
    }
    forall p | 0 <= p < |to| ensures Clash(w, to[p..]) {
      if w[0] == to[p] {
        assert w[1] != to[p..][1];
      } else {
        assert w[0] != to[p..][0];
      }
    }
  }

  lemma BeforeIsPairFree(today: string)
    requires IsoDate(today)
    ensures PairFree("the day before " + today)
  {
    var lit := "the day before ";
    assert |lit| == 15;
    var to := lit + today;
    assert to[|to| - 1] in today;
    forall p | 0 <= p < |to| - 1
      ensures !((to[p] == 'y' || to[p] == 'Y') && to[p + 1] == 'e')
      ensures !((to[p] == 't' || to[p] == 'T') && to[p + 1] == 'o')
    {
      if p >= 15 { assert to[p] in today; }
    }
  }

  lemma AfterIsPairFree(today: string)
    requires IsoDate(today)
    ensures PairFree("the day after " + today)
  {
    var lit := "the day after ";
    assert |lit| == 14;
    var to := lit + today;
    assert to[|to| - 1] in today;
    forall p | 0 <= p < |to| - 1
      ensures !((to[p] == 'y' || to[p] == 'Y') && to[p + 1] == 'e')
      ensures !((to[p] == 't' || to[p] == 'T') && to[p + 1] == 'o')
    {
      if p >= 14 { assert to[p] in today; }
    }
  }

  lemma MeaningIsNeutral(m: nat, k: nat, today: string)
    requires m < 6 && k < 6 && IsoDate(today)
    ensures Neutral(WORDS[m], Meaning(today)[k])
  {
    BeforeIsPairFree(today);
    AfterIsPairFree(today);
    assert today[0] in today && today[|today| - 1] in today;
    assert forall p | 0 <= p < |today| :: today[p] in today;
    assert PairFree(today);
    PairFreeIsNeutral(m, Meaning(today)[k]);
  }

  predicate Undated(s: string) { forall m | 0 <= m < 6 :: !Contains(s, WORDS[m]) }

  /** The words replaced so far are gone, and no replacement brings one back. */
  lemma {:induction false} RewrittenIsUndated(s: string, today: string, k: nat, m: nat)
    requires IsoDate(today) && k <= 6 && m < 6
    ensures m < k ==> !Contains(Rewritten(s, today, k), WORDS[m])
    ensures Contains(Rewritten(s, today, k), WORDS[m]) ==> Contains(s, WORDS[m])
  {
    hide Replaced, Contains, Neutral, Meaning, IsoDate;
    if k > 0 {
      RewrittenIsUndated(s, today, k - 1, m);
      MeaningIsNeutral(m, k - 1, today);
      WordShape(m);
      WordShape(k - 1);
      ReplacingAddsNone(Rewritten(s, today, k - 1), WORDS[k - 1], Meaning(today)[k - 1], WORDS[m]);
    }
  }

  lemma {:induction false} UndatedStays(s: string, today: string, k: nat)
    requires Undated(s) && k <= 6
    ensures Rewritten(s, today, k) == s
  {
    if k > 0 {
      UndatedStays(s, today, k - 1);
      WordShape(k - 1);
      NothingToReplace(s, WORDS[k - 1], Meaning(today)[k - 1]);
    }
  }

  /** Normalising removes all six words, and changes a text exactly when it contains one of them. */
  lemma DatedIsUndated(s: string, today: string)
    requires IsoDate(today)
    ensures Undated(Dated(s, today))
    ensures Dated(s, today) == s <==> Undated(s)
  {
    forall m | 0 <= m < 6 ensures !Contains(Dated(s, today), WORDS[m]) { RewrittenIsUndated(s, today, 6, m); }
    if Undated(s) { UndatedStays(s, today, 6); }
  }

  /** Normalising again, on the same day or any later one, changes nothing. */
  lemma DatedOnce(s: string, today: string, later: string)
    requires IsoDate(today) && IsoDate(later)
    ensures Dated(Dated(s, today), later) == Dated(s, today)
  {
    DatedIsUndated(s, today);
    DatedIsUndated(Dated(s, today), later);
  }

  /** The one word for a relative date in the text stands at this place. */
  predicate OnlyWord(s: string, m: nat, at: nat)
    requires m < 6
  {
    && at <= |s| && WORDS[m] <= s[at..]
    && forall i, k | 0 <= i <= |s| && 0 <= k < 6 && WORDS[k] <= s[i..] :: i == at && k == m
  }

  /** The word stands at this place of the text and at no other. */
  predicate OnlyAt(s: string, w: string, at: int) {
    forall i | 0 <= i <= |s| && w <= s[i..] :: i == at
  }

  lemma OnlyAtFront(w: string, b: string)
    requires w != "" && OnlyAt(w + b, w, 0)
    ensures !Contains(b, w)
  {
    forall i | 0 <= i <= |b| ensures !(w <= b[i..]) { assert (w + b)[|w| + i..] == b[i..]; }
  }

  lemma OnlyAtLater(s: string, w: string, at: int)
    requires s != "" && at > 0 && OnlyAt(s, w, at)
    ensures !(w <= s) && OnlyAt(s[1..], w, at - 1)
  {
    assert s[0..] == s;
    forall i | 0 <= i <= |s[1..]| && w <= s[1..][i..] ensures i == at - 1 { assert s[1..][i..] == s[1 + i..]; }
  }

  lemma {:induction false} ReplacesTheOne(a: string, w: string, b: string, to: string)
    requires w != "" && OnlyAt(a + w + b, w, |a|)
    ensures Replaced(a + w + b, w, to) == a + to + b
    decreases |a|
  {
    hide OnlyAt, Contains;
    var s := a + w + b;
    if a == "" {
      assert s == w + b && s[|w|..] == b;
      OnlyAtFront(w, b);
      NothingToReplace(b, w, to);
    } else {
      OnlyAtLater(s, w, |a|);
      assert s[1..] == a[1..] + w + b;
      ReplacesTheOne(a[1..], w, b, to);
      assert [s[0]] + (a[1..] + to + b) == a + to + b;
    }
  }

  lemma {:induction false} RewritesTheOne(a: string, m: nat, b: string, today: string, k: nat)
    requires IsoDate(today) && m < 6 && k <= 6 && OnlyWord(a + WORDS[m] + b, m, |a|)
    ensures Rewritten(a + WORDS[m] + b, today, k) == if k <= m then a + WORDS[m] + b else a + Meaning(today)[m] + b
  {
    hide Meaning, Replaced, IsoDate;
    var s := a + WORDS[m] + b;
    if k > 0 {
      RewritesTheOne(a, m, b, today, k - 1);
      WordShape(k - 1);
      WordShape(m);
      if k <= m {
        NothingToReplace(s, WORDS[k - 1], Meaning(today)[k - 1]);
      } else if k - 1 == m {
        ReplacesTheOne(a, WORDS[m], b, Meaning(today)[m]);
      } else {
        RewrittenIsUndated(s, today, k - 1, k - 1);
        NothingToReplace(a + Meaning(today)[m] + b, WORDS[k - 1], Meaning(today)[k - 1]);
      }
    }
  }

  /** What the words come to, and that the text around one of them stays as it is. */
  lemma DatesTheOne(a: string, m: nat, b: string, today: string)
    requires IsoDate(today) && m < 6 && OnlyWord(a + WORDS[m] + b, m, |a|)
    ensures Dated(a + WORDS[m] + b, today) ==
      if WORDS[m] == "yesterday" || WORDS[m] == "Yesterday" then a + "the day before " + today + b
      else if WORDS[m] == "today" || WORDS[m] == "Today" then a + today + b
      else a + "the day after " + today + b
  {
    RewritesTheOne(a, m, b, today, 6);
    assert WORDS[m][0] == "yYtTtT"[m];
    assert m < 2 || WORDS[m][2] == "  ddmm"[m];
    assert a + ("the day before " + today) + b == a + "the day before " + today + b;
    assert a + ("the day after " + today) + b == a + "the day after " + today + b;
  }

  // --- Drafts and files -------------------------------------------------------------------

  /** The hash of a text, equal exactly for equal texts. */
  datatype Hash = HashOf(text: string)

  datatype DraftStatus = PendingReview | Applied | Rejected

  datatype Draft = Draft(id: FreshId, path: string, base: Hash, proposed: string, rationale: string, status: DraftStatus)

  function DraftKey(d: Draft): FreshId { d.id }

  function ContentAt(files: map<string, string>, path: string): string { if path in files then files[path] else "" }

  function Stripped(s: string): string
    decreases |s|
  {
    if s != "" && Space(s[|s| - 1]) then Stripped(s[..|s| - 1])
    else if s != "" && Space(s[0]) then Stripped(s[1..])
    else s
  }

  function RightStripped(s: string): string {
    if s != "" && Space(s[|s| - 1]) then RightStripped(s[..|s| - 1]) else s
  }

  /** The section a draft without a proposal appends; only its body is normalised. */
  function Section(current: string, title: string, body: string, stamp: string, today: string): string {
    var kept := RightStripped(current);
    (if kept == "" then "# Organization Memory" else kept) + "\n\n## " + title + " (" + stamp + ")\n"
    + Stripped(Dated(body, today)) + "\n"
  }

  predicate Blank(s: string) { forall c | c in s :: Space(c) }

  /** `s` without the white space around it. */
  ghost predicate Trims(s: string, core: string) {
    && (core != "" ==> !Space(core[0]) && !Space(core[|core| - 1]))
    && exists before, after :: Blank(before) && Blank(after) && s == before + core + after
  }

  lemma TrimsOneMore(s: string, core: string, c: char)
    requires Trims(s, core) && Space(c)
    ensures Trims(s + [c], core) && Trims([c] + s, core)
  {
    hide Space;
    var before, after :| Blank(before) && Blank(after) && s == before + core + after;
    assert Blank(after + [c]) && s + [c] == before + core + (after + [c]);
    assert Blank([c] + before) && [c] + s == ([c] + before) + core + after;
  }

  lemma NothingToTrim(s: string)
    requires s != "" ==> !Space(s[0]) && !Space(s[|s| - 1])
    ensures Trims(s, s)
  {
    assert Blank("") && s == "" + s + "";
  }

  lemma {:induction false} StrippedTrims(s: string)
    ensures Trims(s, Stripped(s))
    decreases |s|
  {
    hide Trims, Space;
    var n := |s| - 1;
    if s != "" && Space(s[n]) {
      StrippedTrims(s[..n]);
      TrimsOneMore(s[..n], Stripped(s[..n]), s[n]);
      assert s == s[..n] + [s[n]];
    } else if s != "" && Space(s[0]) {
      StrippedTrims(s[1..]);
      TrimsOneMore(s[1..], Stripped(s[1..]), s[0]);
      assert s == [s[0]] + s[1..];
    } else {
      NothingToTrim(s);
    }
  }

  lemma {:induction false} RightStrippedTrims(s: string)
    ensures var kept := RightStripped(s); kept <= s && Blank(s[|kept|..]) && (kept != "" ==> !Space(kept[|kept| - 1]))
    decreases |s|
  {
    if s != "" && Space(s[|s| - 1]) {
      RightStrippedTrims(s[..|s| - 1]);
      var kept := RightStripped(s);
      assert s[|kept|..] == s[..|s| - 1][|kept|..] + [s[|s| - 1]];
    }
  }

  /** A section goes after the text without its trailing white space, with a dated heading and a trimmed, undated body. */
  lemma SectionIsAppended(current: string, title: string, body: string, stamp: string, today: string)
    ensures exists kept, core ::
      && kept <= current && Blank(current[|kept|..]) && (kept != "" ==> !Space(kept[|kept| - 1]))
      && Trims(Dated(body, today), core)
      && Section(current, title, body, stamp, today) ==
           (if kept == "" then "# Organization Memory" else kept)
           + "\n\n## " + title + " (" + stamp + ")\n" + core + "\n"
  {
    hide Dated, Trims;
    RightStrippedTrims(current);
    StrippedTrims(Dated(body, today));
  }

  /** What a caller asks for; the path is already resolved. */
  datatype Payload = Payload(path: string, proposed: string, title: string, body: string, rationale: string)

  function Proposal(files: map<string, string>, p: Payload, stamp: string, today: string): string {
    var proposed := Dated(p.proposed, today);
    if proposed != "" then proposed else Section(ContentAt(files, p.path), p.title, p.body, stamp, today)
  }

  datatype Store = Store(files: map<string, string>, drafts: seq<Draft>, next: FreshId)

  function Drafted(s: Store, p: Payload, stamp: string, today: string): Store {
    var d := Draft(s.next, p.path, HashOf(ContentAt(s.files, p.path)), Proposal(s.files, p, stamp, today), p.rationale,
                   PendingReview);
    s.(drafts := s.drafts + [d], next := s.next + 1)
  }

  /** A draft is applied whatever its status, as long as its file still has the content it was drafted from. */
  predicate Applicable(s: Store, id: FreshId) {
    var d := Find(DraftKey, s.drafts, id);
    d.Some? && HashOf(ContentAt(s.files, d.value.path)) == d.value.base
  }

  function AppliedTo(s: Store, id: FreshId, today: string): Store
    requires Applicable(s, id)
  {
    var d := Find(DraftKey, s.drafts, id).value;
    s.(files := s.files[d.path := Dated(d.proposed, today)], drafts := Put(DraftKey, s.drafts, d.(status := Applied)))
  }

  function RejectedIn(s: Store, id: FreshId): Store {
    match Find(DraftKey, s.drafts, id)
    case None => s
    case Some(d) => s.(drafts := Put(DraftKey, s.drafts, d.(status := Rejected)))
  }

  predicate Numbered(s: Store) { OneEach(DraftKey, s.drafts) && Below(DraftKey, s.drafts, s.next) }

  class MemoryService {
    var files: map<string, string>
    const drafts: JsonRepository<FreshId, Draft>
    var next: FreshId

    ghost predicate Valid()
      reads this, drafts
    {
      drafts.idOf == DraftKey && Numbered(Contents())
    }

    ghost function Contents(): Store
      reads this, drafts
    {
      Store(files, drafts.items, next)
    }

    constructor (files: map<string, string>)
      ensures Valid() && Contents() == Store(files, [], 0)
    {
      this.files := files;
      drafts := new JsonRepository(DraftKey);
      next := 0;
    }

    method MakeDraft(p: Payload, stamp: string, today: string) returns (d: Draft)
      requires Valid()
      modifies this`next, drafts`items
      ensures Valid() && Contents() == Drafted(old(Contents()), p, stamp, today)
      ensures d.id == old(next) && Find(DraftKey, drafts.items, d.id) == Some(d) && d.base == HashOf(ContentAt(files, p.path))
    {
      hide Section, Dated;
      var current := ContentAt(files, p.path);
      var proposed := NormalizeRelativeDates(p.proposed, today);
      if proposed == "" { proposed := Section(current, p.title, p.body, stamp, today); }
      d := Draft(next, p.path, HashOf(current), proposed, p.rationale, PendingReview);
      PutLast(DraftKey, drafts.items, d, next);
      PutIsAssignment(DraftKey, drafts.items, d);
      drafts.Upsert(d);
      next := next + 1;
    }

    method ApplyDraft(id: FreshId, today: string) returns (r: Result<Draft>)
      requires Valid()
      modifies this`files, drafts`items
      ensures Valid() && (r.Ok? <==> Applicable(old(Contents()), id))
      ensures Contents() == if r.Ok? then AppliedTo(old(Contents()), id, today) else old(Contents())
    {
      hide Dated, Put;
      var d := drafts.Get(id);
      if d.None? { return Raised; }
      if HashOf(ContentAt(files, d.value.path)) != d.value.base { return Raised; }
      var content := NormalizeRelativeDates(d.value.proposed, today);
      files := files[d.value.path := content];
      var applied := d.value.(status := Applied);
      PutKnown(drafts.items, d.value, applied, next);
      drafts.Upsert(applied);
      return Ok(applied);
    }

    method RejectDraft(id: FreshId) returns (r: Result<Draft>)
      requires Valid()
      modifies drafts`items
      ensures Valid() && (r.Ok? <==> Find(DraftKey, old(drafts.items), id).Some?)
      ensures Contents() == RejectedIn(old(Contents()), id)
    {
      hide Put;
      var d := drafts.Get(id);
      if d.None? { return Raised; }
      var rejected := d.value.(status := Rejected);
      PutKnown(drafts.items, d.value, rejected, next);
      drafts.Upsert(rejected);
      return Ok(rejected);
    }
  }

  lemma PutKnown(drafts: seq<Draft>, d: Draft, e: Draft, n: FreshId)
    requires OneEach(DraftKey, drafts) && Below(DraftKey, drafts, n) && Find(DraftKey, drafts, d.id) == Some(d) && e.id == d.id
    ensures OneEach(DraftKey, Put(DraftKey, drafts, e)) && Below(DraftKey, Put(DraftKey, drafts, e), n)
    ensures forall id :: Find(DraftKey, Put(DraftKey, drafts, e), id)
              == if id == e.id then Some(e) else Find(DraftKey, drafts, id)
  {
    PutIsAssignment(DraftKey, drafts, e);
  }

  // --- Compare and swap -------------------------------------------------------------------

  datatype Act =
    | MakeDraft(payload: Payload, stamp: string, today: string)
    | Apply(id: FreshId, today: string)
    | Reject(id: FreshId)
    | Edit(path: string, content: string)

  function After(s: Store, act: Act): Store {
    match act
    case MakeDraft(p, stamp, today) => Drafted(s, p, stamp, today)
    case Apply(id, today) => if Applicable(s, id) then AppliedTo(s, id, today) else s
    case Reject(id) => RejectedIn(s, id)
    case Edit(path, content) => s.(files := s.files[path := content])
  }

  function Play(s: Store, acts: seq<Act>): Store {
    if acts == [] then s else After(Play(s, acts[..|acts| - 1]), acts[|acts| - 1])
  }

  /** Draft `id` was made at step `k`, on this content, proposing this text. */
  predicate MadeAt(start: Store, acts: seq<Act>, k: nat, d: Draft) {
    && k < |acts| && acts[k].MakeDraft? && acts[k].payload.path == d.path
    && var s := Play(start, acts[..k]);
       s.next == d.id && d.base == HashOf(ContentAt(s.files, d.path))
       && d.proposed == Proposal(s.files, acts[k].payload, acts[k].stamp, acts[k].today)
  }

  ghost predicate AllMade(start: Store, acts: seq<Act>) {
    var s := Play(start, acts);
    && Numbered(s)
    && forall d | d in s.drafts :: exists k: nat :: MadeAt(start, acts, k, d)
  }

  lemma MadeBefore(start: Store, acts: seq<Act>, act: Act, k: nat, d: Draft)
    requires MadeAt(start, acts, k, d)
    ensures MadeAt(start, acts + [act], k, d)
    ensures forall e: Draft | e == d.(status := e.status) :: MadeAt(start, acts + [act], k, e)
  {
    assert (acts + [act])[..k] == acts[..k];
  }

  /** Where a draft of the next state comes from. */
  lemma DraftsAfter(s: Store, act: Act, d: Draft)
    requires Numbered(s) && d in After(s, act).drafts
    ensures || (exists e | e in s.drafts :: d == e.(status := d.status))
            || (act.MakeDraft? && d == After(s, act).drafts[|s.drafts|])
  {
    if act.Apply? || act.Reject? {
      var found := Find(DraftKey, s.drafts, act.id);
      if found.Some? && d !in s.drafts { assert found.value in s.drafts; }
    }
  }

  lemma NumberedAfter(s: Store, act: Act)
    requires Numbered(s)
    ensures Numbered(After(s, act))
  {
    match act
    case MakeDraft(p, stamp, today) => PutLast(DraftKey, s.drafts, Drafted(s, p, stamp, today).drafts[|s.drafts|], s.next);
    case Apply(id, _) => if Find(DraftKey, s.drafts, id).Some? {
      var d := Find(DraftKey, s.drafts, id).value;
      PutKnown(s.drafts, d, d.(status := Applied), s.next);
    }
    case Reject(id) => if Find(DraftKey, s.drafts, id).Some? {
      var d := Find(DraftKey, s.drafts, id).value;
      PutKnown(s.drafts, d, d.(status := Rejected), s.next);
    }
    case Edit(_, _) =>
  }

  lemma {:induction false} DraftsAreMade(files: map<string, string>, acts: seq<Act>)
    ensures AllMade(Store(files, [], 0), acts)
  {
    hide MadeAt, Numbered, Proposal;
    var start := Store(files, [], 0);
    if acts == [] {
      assert Numbered(start) by { NothingNumbered(start); }
    } else {
      var n := |acts| - 1;
      var s := Play(start, acts[..n]);
      DraftsAreMade(files, acts[..n]);
      assert acts == acts[..n] + [acts[n]];
      NumberedAfter(s, acts[n]);
      forall d | d in After(s, acts[n]).drafts ensures exists k: nat :: MadeAt(start, acts, k, d) {
        DraftsAfter(s, acts[n], d);
        if e :| e in s.drafts && d == e.(status := d.status) {
          var k: nat :| MadeAt(start, acts[..n], k, e);
          MadeBefore(start, acts[..n], acts[n], k, e);
        } else {
          JustMade(start, acts, d);
        }
      }
    }
  }

  lemma NothingNumbered(s: Store) requires s.drafts == [] ensures Numbered(s) {}

  lemma JustMade(start: Store, acts: seq<Act>, d: Draft)
    requires acts != [] && acts[|acts| - 1].MakeDraft?
    requires var s := Play(start, acts[..|acts| - 1]); d == After(s, acts[|acts| - 1]).drafts[|s.drafts|]
    ensures MadeAt(start, acts, |acts| - 1, d)
  {
  }

  /**
   Over any run of drafts, applies, rejections and outside edits: a draft that is applied finds its
   file exactly as it was when the draft was made, and leaves there the proposal made then,
   unchanged if that proposal has no relative date in it.
   */
  lemma AppliedOntoItsBase(files: map<string, string>, acts: seq<Act>, id: FreshId, today: string)
    requires Applicable(Play(Store(files, [], 0), acts), id) && IsoDate(today)
    ensures var start := Store(files, [], 0);
      var s := Play(start, acts);
      exists k: nat, d :: MadeAt(start, acts, k, d) && d.id == id
        && ContentAt(s.files, d.path) == ContentAt(Play(start, acts[..k]).files, d.path)
        && ContentAt(AppliedTo(s, id, today).files, d.path) == Dated(d.proposed, today)
        && (ContentAt(AppliedTo(s, id, today).files, d.path) == d.proposed <==> Undated(d.proposed))
        && forall path | path != d.path :: ContentAt(AppliedTo(s, id, today).files, path) == ContentAt(s.files, path)
  {
    hide Dated, Undated, Proposal, Play, Put;
    var start := Store(files, [], 0);
    var s := Play(start, acts);
    DraftsAreMade(files, acts);
    var d := Find(DraftKey, s.drafts, id).value;
    assert d in s.drafts;
    var k: nat :| MadeAt(start, acts, k, d);
    DatedIsUndated(d.proposed, today);
  }

  /** A proposal that was given, not composed, is normalised when it is drafted and so is applied unchanged. */
  lemma GivenProposalIsUndated(files: map<string, string>, p: Payload, stamp: string, today: string)
    requires IsoDate(today) && Dated(p.proposed, today) != ""
    ensures Undated(Proposal(files, p, stamp, today))
  {
    hide Dated, Undated;
    DatedIsUndated(p.proposed, today);
  }
}
