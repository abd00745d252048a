/**
 The normalisation behind claim signatures: lower-case, split on white space, join with
 single spaces. Lower-casing is a table from characters to texts whose outputs are
 already lower-case; characters whose lower case depends on their neighbours are not modelled.
 */
module Normalization {

  /** The white space of Python's `str.split`. */
  predicate Space(c: char) {
    c as int in {9, 10, 11, 12, 13, 28, 29, 30, 31, 32, 0x85, 0xA0, 0x1680, 0x2028, 0x2029, 0x202F, 0x205F, 0x3000}
    || 0x2000 <= c as int <= 0x200A
  }

  /** The characters with Unicode's White_Space property, and the four information separators. */
  lemma SpacesAre(c: char)
    ensures var n := c as int;
      Space(c) <==>
        9 <= n <= 13 || n == 0x20 || n == 0x85 || n == 0xA0 || n == 0x1680 || 0x2000 <= n <= 0x200A
        || n == 0x2028 || n == 0x2029 || n == 0x202F || n == 0x205F || n == 0x3000 || 0x1C <= n <= 0x1F
  {
  }

  /** Lower case is fixed by lower-casing, and a space stays a space. */
  ghost predicate Casing(lower: char -> string) {
    lower(' ') == " " && forall c, d | d in lower(c) :: lower(d) == [d]
  }

  function Lower(lower: char -> string, s: string): string {
    if s == "" then "" else lower(s[0]) + Lower(lower, s[1..])
  }

  /** The run of characters before the first white space. */
  function Word(s: string): (w: string)
    ensures w <= s && (forall c | c in w :: !Space(c))
    ensures |w| < |s| ==> Space(s[|w|])
    ensures s != "" && !Space(s[0]) ==> w != ""
  {
    if s == "" || Space(s[0]) then "" else [s[0]] + Word(s[1..])
  }

  function Split(s: string): seq<string>
    decreases |s|
  {
    if s == "" then []
    else if Space(s[0]) then Split(s[1..])
    else
      var w := Word(s);
      [w] + Split(s[|w|..])
  }

  function Join(words: seq<string>): string {
    if words == [] then "" else if |words| == 1 then words[0] else words[0] + " " + Join(words[1..])
  }

  function Normalized(lower: char -> string, s: string): string { Join(Split(Lower(lower, s))) }

  predicate Clean(words: seq<string>) {
    forall w | w in words :: w != "" && forall c | c in w :: !Space(c)
  }

  lemma {:induction false} SplitIsClean(s: string)
    ensures Clean(Split(s))
    ensures forall w, c | w in Split(s) && c in w :: c in s
    decreases |s|
  {
    if s != "" {
      if Space(s[0]) {
        SplitIsClean(s[1..]);
      } else {
        SplitIsClean(s[|Word(s)|..]);
      }
    }
  }

  lemma {:induction false} WordStops(w: string, rest: string)
    requires (forall c | c in w :: !Space(c)) && (rest == "" || Space(rest[0]))
    ensures Word(w + rest) == w
  {
    if w == "" {
      assert w + rest == rest;
    } else {
      WordStops(w[1..], rest);
      assert (w + rest)[1..] == w[1..] + rest;
      assert [w[0]] + w[1..] == w;
    }
  }

  lemma SplitWord(w: string, rest: string)
    requires w != "" && (forall c | c in w :: !Space(c)) && (rest == "" || Space(rest[0]))
    ensures Split(w + rest) == [w] + Split(rest)
  {
    WordStops(w, rest);
    assert (w + rest)[0] == w[0] && w[0] in w;
    assert (w + rest)[|w|..] == rest;
  }

  lemma SplitGap(c: char, rest: string)
    requires Space(c)
    ensures Split([c] + rest) == Split(rest)
  {
    assert ([c] + rest)[1..] == rest;
  }

  /** Splitting undoes joining. */
  lemma {:induction false} SplitJoin(words: seq<string>)
    requires Clean(words)
    ensures Split(Join(words)) == words
  {
    hide Split, Space;
    if words == [] {
      NothingToSplit();
    } else {
      var w, rest := words[0], words[1..];
      assert w in words;
      if |words| == 1 {
        assert Join(words) == w + "" && rest == [];
        SplitWord(w, "");
        NothingToSplit();
        assert words == [w] + [];
      } else {
        SpaceIsSpace();
        SplitWord(w, " " + Join(rest));
        SplitGap(' ', Join(rest));
        assert forall v | v in rest :: v in words;
        SplitJoin(rest);
        assert Join(words) == w + (" " + Join(rest));
        assert words == [w] + rest;
      }
    }
  }

  lemma NothingToSplit() ensures Split("") == [] {}

  lemma SpaceIsSpace() ensures Space(' ') {}

  lemma {:induction false} LowerIsLower(lower: char -> string, s: string)
    requires Casing(lower)
    ensures forall c | c in Lower(lower, s) :: lower(c) == [c]
  {
    if s != "" { LowerIsLower(lower, s[1..]); }
  }

  lemma {:induction false} LowerFixes(lower: char -> string, s: string)
    requires forall c | c in s :: lower(c) == [c]
    ensures Lower(lower, s) == s
  {
    if s != "" {
      LowerFixes(lower, s[1..]);
      assert s == [s[0]] + s[1..];
    }
  }

  lemma {:induction false} JoinCharacters(words: seq<string>)
    ensures forall c | c in Join(words) :: c == ' ' || exists w :: w in words && c in w
  {
    if |words| > 1 {
      JoinCharacters(words[1..]);
      forall c | c in Join(words) ensures c == ' ' || exists w :: w in words && c in w {
        if c in words[0] {
          assert words[0] in words;
        } else if c != ' ' {
          assert c in Join(words[1..]);
          var w :| w in words[1..] && c in w;
          assert w in words;
        }
      }
    } else if |words| == 1 {
      assert words[0] in words;
    }
  }

  /** Normalising twice is normalising once. */
  lemma NormalizedTwice(lower: char -> string, s: string)
    requires Casing(lower)
    ensures Normalized(lower, Normalized(lower, s)) == Normalized(lower, s)
  {
    var low := Lower(lower, s);
    var n := Normalized(lower, s);
    LowerIsLower(lower, s);
    SplitIsClean(low);
    JoinCharacters(Split(low));
    forall c | c in n ensures lower(c) == [c] {
      if c != ' ' {
        var w :| w in Split(low) && c in w;
        assert c in low;
      }
    }
    LowerFixes(lower, n);
    SplitJoin(Split(low));
  }

  /** Two texts normalise alike exactly when they are the same words in lower case. */
  lemma SameNormalIffSameWords(lower: char -> string, a: string, b: string)
    ensures Normalized(lower, a) == Normalized(lower, b) <==> Split(Lower(lower, a)) == Split(Lower(lower, b))
  {
    SplitIsClean(Lower(lower, a));
    SplitIsClean(Lower(lower, b));
    SplitJoin(Split(Lower(lower, a)));
    SplitJoin(Split(Lower(lower, b)));
  }

  lemma {:induction false} SplitAfterGap(gap: string, b: string)
    requires forall c | c in gap :: Space(c)
    ensures Split(gap + b) == Split(b)
  {
    hide Split, Space;
    if gap == "" {
      assert gap + b == b;
    } else {
      SplitAfterGap(gap[1..], b);
      SplitGap(gap[0], gap[1..] + b);
      assert gap + b == [gap[0]] + (gap[1..] + b);
    }
  }

  lemma {:induction false} SplitAround(a: string, b: string, gap: string)
    requires gap != "" && (forall c | c in gap :: Space(c))
    ensures Split(a + gap + b) == Split(a) + Split(b)
    decreases |a|
  {
    hide Split, Space;
    if a == "" {
      assert a + gap + b == gap + b;
      SplitAfterGap(gap, b);
      NothingToSplit();
    } else if Space(a[0]) {
      SplitAround(a[1..], b, gap);
      SplitGap(a[0], a[1..]);
      SplitGap(a[0], a[1..] + gap + b);
      assert a == [a[0]] + a[1..] && a + gap + b == [a[0]] + (a[1..] + gap + b);
    } else {
      var w := Word(a);
      var rest := a[|w|..];
      assert rest + gap + b != "" && Space((rest + gap + b)[0]) by {
        if rest == "" { assert rest + gap + b == gap + b && gap[0] in gap; }
      }
      SplitWord(w, rest);
      SplitWord(w, rest + gap + b);
      SplitAround(rest, b, gap);
      assert a == w + rest && a + gap + b == w + (rest + gap + b);
    }
  }

  lemma {:induction false} LowerAppend(lower: char -> string, a: string, b: string)
    ensures Lower(lower, a + b) == Lower(lower, a) + Lower(lower, b)
  {
    if a == "" {
      assert a + b == b;
    } else {
      LowerAppend(lower, a[1..], b);
      assert (a + b)[0] == a[0] && (a + b)[1..] == a[1..] + b;
    }
  }

  /** However much white space stands between two texts, they normalise alike. */
  lemma SpacingIsIrrelevant(lower: char -> string, a: string, b: string, gap: string, other: string)
    requires gap != "" && other != "" && (forall c | c in gap + other :: Space(c) && lower(c) == [c])
    ensures Normalized(lower, a + gap + b) == Normalized(lower, a + other + b)
  {
    SpacedSplit(lower, a, b, gap);
    SpacedSplit(lower, a, b, other);
  }

  lemma SpacedSplit(lower: char -> string, a: string, b: string, gap: string)
    requires gap != "" && (forall c | c in gap :: Space(c) && lower(c) == [c])
    ensures Split(Lower(lower, a + gap + b)) == Split(Lower(lower, a)) + Split(Lower(lower, b))
  {
    LowerAppend(lower, a + gap, b);
    LowerAppend(lower, a, gap);
    LowerFixes(lower, gap);
    SplitAround(Lower(lower, a), Lower(lower, b), gap);
  }

  lemma {:induction false} LowerAlike(lower: char -> string, s: string, t: string)
    requires |s| == |t| && forall i | 0 <= i < |s| :: lower(s[i]) == lower(t[i])
    ensures Lower(lower, s) == Lower(lower, t)
  {
    if s != "" {
      forall i | 0 <= i < |s[1..]| ensures lower(s[1..][i]) == lower(t[1..][i]) {
        assert s[1..][i] == s[i + 1] && t[1..][i] == t[i + 1];
      }
      LowerAlike(lower, s[1..], t[1..]);
    }
  }

  /** Letter case does not matter. */
  lemma CaseIsIrrelevant(lower: char -> string, s: string, t: string)
    requires |s| == |t| && forall i | 0 <= i < |s| :: lower(s[i]) == lower(t[i])
    ensures Normalized(lower, s) == Normalized(lower, t)
  {
    LowerAlike(lower, s, t);
  }

  /** White space is a single blank between two other characters. */
  predicate SingleSpaced(s: string) {
    forall i | 0 <= i < |s| && Space(s[i]) ::
      s[i] == ' ' && 0 < i < |s| - 1 && !Space(s[i - 1]) && !Space(s[i + 1])
  }

  lemma {:induction false} JoinIsSingleSpaced(words: seq<string>)
    requires Clean(words)
    ensures SingleSpaced(Join(words))
    ensures words != [] ==> Join(words) != "" && !Space(Join(words)[0])
  {
    hide Space;
    if words != [] {
      var w, rest := words[0], words[1..];
      assert w in words && w[0] in w;
      if |words| > 1 {
        forall v | v in rest ensures v in words {}
        JoinIsSingleSpaced(rest);
        SpaceIsSpace();
        var tail := Join(rest);
        var n := |w| + 1;
        var s := w + " " + tail;
        assert Join(words) == s;
        assert forall i | 0 <= i < |w| :: s[i] == w[i] && w[i] in w;
        assert s[|w|] == ' ' && forall i | 0 <= i < |tail| :: s[n + i] == tail[i];
        forall i | 0 <= i < |s| && Space(s[i])
          ensures s[i] == ' ' && 0 < i < |s| - 1 && !Space(s[i - 1]) && !Space(s[i + 1])
        {
          if i > |w| { assert s[i] == tail[i - n] && s[i - 1] == tail[i - n - 1] && s[i + 1] == tail[i - n + 1]; }
        }
      } else {
        assert Join(words) == w && forall i | 0 <= i < |w| :: w[i] in w;
      }
    }
  }

  /** A normal text has no white space at its ends and single blanks inside. */
  lemma NormalIsSingleSpaced(lower: char -> string, s: string)
    ensures SingleSpaced(Normalized(lower, s))
  {
    SplitIsClean(Lower(lower, s));
    JoinIsSingleSpaced(Split(Lower(lower, s)));
  }
}
