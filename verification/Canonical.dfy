/**
 The canonical text behind every digest, and a parser that takes it apart again.

 A JSON value is a Python value: whole numbers of any size, finite floats, texts of Unicode
 scalar values, lists, and dictionaries as their items in insertion order.
 */
module Canonical {
  import opened Sequences
  import opened Decimals
  import opened Numbers
  import Ordering
  import opened CodeUnits

  datatype Json =
    | Null
    | Bool(value: bool)
    | Integer(i: int)
    | Float(d: Decimal)
    | Text(text: string)
    | Array(items: seq<Json>)
    | Object(members: seq<(string, Json)>)

  predicate DistinctNames(ms: seq<(string, Json)>) {
    forall i, j | 0 <= i < j < |ms| :: ms[i].0 != ms[j].0
  }

  predicate WellFormed(v: Json) {
    match v
    case Float(d) => Normal(d)
    case Array(items) => forall i | 0 <= i < |items| :: WellFormed(items[i])
    case Object(ms) => DistinctNames(ms) && forall i | 0 <= i < |ms| :: WellFormed(ms[i].1)
    case _ => true
  }

  function NameKey(m: (string, Json)): Ordering.Key { Utf16Bytes(m.0) }

  /** A dictionary's items in the order they are written. */
  function InOrder(ms: seq<(string, Json)>): (r: seq<(string, Json)>)
    ensures multiset(r) == multiset(ms)
    ensures |r| == |ms| && forall m :: m in r <==> m in ms
  {
    var r: seq<(string, Json)> := Ordering.Sorted(NameKey, ms);
    assert |multiset(r)| == |r| && |multiset(ms)| == |ms|;
    assert forall m :: m in r <==> m in multiset(r);
    assert forall m :: m in ms <==> m in multiset(ms);
    r
  }

  // --- Printing ---------------------------------------------------------------------------

  function HexDigit(d: nat): char
    requires d < 16
  {
    "0123456789abcdef"[d]
  }

  /** `json.dumps` without ASCII escaping. */
  function Escape(c: char): (e: string)
    ensures e != ""
  {
    if c == '"' then ['\\', '"']
    else if c == '\\' then ['\\', '\\']
    else if c == '\n' then ['\\', 'n']
    else if c == '\r' then ['\\', 'r']
    else if c == '\t' then ['\\', 't']
    else if c as int == 8 then ['\\', 'b']
    else if c as int == 12 then ['\\', 'f']
    else if (c as int) < 32 then ['\\', 'u', '0', '0', HexDigit(c as int / 16), HexDigit(c as int % 16)]
    else [c]
  }

  function Escaped(s: string): string { if s == "" then "" else Escape(s[0]) + Escaped(s[1..]) }

  function Quoted(s: string): string { "\"" + (Escaped(s) + "\"") }

  function Joined(texts: seq<string>): string {
    if texts == [] then "" else if |texts| == 1 then texts[0] else texts[0] + "," + Joined(texts[1..])
  }

  function Canonical(v: Json): string
    requires WellFormed(v)
  {
    match v
    case Null => "null"
    case Bool(b) => if b then "true" else "false"
    case Integer(i) => Whole(i)
    case Float(d) => Number(d)
    case Text(s) => Quoted(s)
    case Array(items) => "[" + Joined(seq(|items|, k requires 0 <= k < |items| => Canonical(items[k]))) + "]"
    case Object(ms) =>
      var sorted := InOrder(ms);
      assert forall k | 0 <= k < |sorted| :: sorted[k] in sorted;
      "{" + Joined(seq(|sorted|, k requires 0 <= k < |sorted| =>
                         Quoted(sorted[k].0) + ":" + Canonical(sorted[k].1))) + "}"
  }

  // --- Parsing ----------------------------------------------------------------------------

  function HexValue(c: char): Option<nat> {
    if '0' <= c <= '9' then Some(c as nat - '0' as nat)
    else if 'a' <= c <= 'f' then Some(10 + (c as nat - 'a' as nat))
    else None
  }

  /** Control characters that have an escape of two characters: backspace, tab, newline, form feed, carriage return. */
  predicate ShortControl(code: nat) { code in {8, 9, 10, 12, 13} }

  /**
   One character of a quoted text, and what follows it. Only the spelling of section 3.2.2.2 of RFC 8785 is
   read: no raw control character, and `\u` only for a control character that has nothing shorter.
   */
  function ReadChar(s: string): (r: Option<(char, string)>)
    ensures r.Some? ==> |r.value.1| < |s|
  {
    if s == "" || s[0] == '"' then None
    else if s[0] != '\\' then if (s[0] as int) < 32 then None else Some((s[0], s[1..]))
    else if |s| < 2 then None
    else match s[1]
      case '"' => Some(('"', s[2..]))
      case '\\' => Some(('\\', s[2..]))
      case 'n' => Some(('\n', s[2..]))
      case 'r' => Some(('\r', s[2..]))
      case 't' => Some(('\t', s[2..]))
      case 'b' => Some((8 as char, s[2..]))
      case 'f' => Some((12 as char, s[2..]))
      case 'u' =>
        if |s| < 6 || s[2..4] != "00" then None
        else (
          var hi, lo := HexValue(s[4]), HexValue(s[5]);
          if hi.None? || lo.None? then None
          else
            var code := 16 * hi.value + lo.value;
            if code < 32 && !ShortControl(code) then Some((code as char, s[6..])) else None)
      case _ => None
  }

  /** A quoted text after its opening quote, and what follows the closing one. */
  function ReadText(s: string): (r: Option<(string, string)>)
    ensures r.Some? ==> |r.value.1| < |s|
    decreases |s|
  {
    if s != "" && s[0] == '"' then Some(("", s[1..]))
    else match ReadChar(s)
      case None => None
      case Some(c) =>
        match ReadText(c.1)
        case None => None
        case Some(t) => Some(([c.0] + t.0, t.1))
  }

  predicate Numeric(c: char) { c in "+-.e0123456789" }

  /** The longest run of characters a number may be written with. */
  function Token(s: string): (t: string)
    ensures t <= s
  {
    if s == "" || !Numeric(s[0]) then "" else [s[0]] + Token(s[1..])
  }

  type Reading<T> = Option<(T, string)>

  function ReadLiteral(s: string, word: string, v: Json): Reading<Json> {
    if word <= s then Some((v, s[|word|..])) else None
  }

  function ReadNumeral(s: string): Reading<Json> {
    var t := Token(s);
    var d := ReadNumber(t);
    if d.Some? then Some((Float(d.value), s[|t|..])) else None
  }

  function ReadValue(s: string): (r: Reading<Json>)
    ensures r.Some? ==> |r.value.1| < |s|
    decreases |s|, 0
  {
    if s == "" then None
    else if s[0] == 'n' then ReadLiteral(s, "null", Null)
    else if s[0] == 't' then ReadLiteral(s, "true", Bool(true))
    else if s[0] == 'f' then ReadLiteral(s, "false", Bool(false))
    else if s[0] == '"' then
      match ReadText(s[1..]) case None => None case Some(t) => Some((Text(t.0), t.1))
    else if s[0] == '[' then
      if |s| > 1 && s[1] == ']' then Some((Array([]), s[2..]))
      else match ReadItems(s[1..]) case None => None case Some(t) => Some((Array(t.0), t.1))
    else if s[0] == '{' then
      if |s| > 1 && s[1] == '}' then Some((Object([]), s[2..]))
      else match ReadMembers(s[1..]) case None => None case Some(t) => Some((Object(t.0), t.1))
    else if Token(s) == "" then None
    else ReadNumeral(s)
  }

  function ReadItems(s: string): (r: Reading<seq<Json>>)
    ensures r.Some? ==> |r.value.1| < |s|
    decreases |s|, 1
  {
    match ReadValue(s)
    case None => None
    case Some(x) =>
      if x.1 == "" then None
      else if x.1[0] == ']' then Some(([x.0], x.1[1..]))
      else if x.1[0] != ',' then None
      else match ReadItems(x.1[1..])
        case None => None
        case Some(xs) => Some(([x.0] + xs.0, xs.1))
  }

  function ReadMember(s: string): (r: Reading<(string, Json)>)
    ensures r.Some? ==> |r.value.1| < |s|
    decreases |s|, 1
  {
    if s == "" || s[0] != '"' then None
    else match ReadText(s[1..])
      case None => None
      case Some(name) =>
        if name.1 == "" || name.1[0] != ':' then None
        else match ReadValue(name.1[1..])
          case None => None
          case Some(x) => Some(((name.0, x.0), x.1))
  }

  function ReadMembers(s: string): (r: Reading<seq<(string, Json)>>)
    ensures r.Some? ==> |r.value.1| < |s|
    decreases |s|, 2
  {
    match ReadMember(s)
    case None => None
    case Some(x) =>
      if x.1 == "" then None
      else if x.1[0] == '}' then Some(([x.0], x.1[1..]))
      else if x.1[0] != ',' then None
      else match ReadMembers(x.1[1..])
        case None => None
        case Some(xs) => Some(([x.0] + xs.0, xs.1))
  }

  // --- What the text says -----------------------------------------------------------------

  /** A value up to the order of dictionary items and to 1 against 1.0. */
  function Norm(v: Json): Json
    requires WellFormed(v)
  {
    match v
    case Integer(i) => Float(DecimalOf(i))
    case Array(items) => Array(seq(|items|, k requires 0 <= k < |items| => Norm(items[k])))
    case Object(ms) =>
      var sorted := InOrder(ms);
      assert forall k | 0 <= k < |sorted| :: sorted[k] in sorted;
      Object(seq(|sorted|, k requires 0 <= k < |sorted| => (sorted[k].0, Norm(sorted[k].1))))
    case _ => v
  }

  lemma HexBack(d: nat)
    requires d < 16
    ensures HexValue(HexDigit(d)) == Some(d)
  {
  }

  lemma ReadEscape(c: char, rest: string)
    ensures ReadChar(Escape(c) + rest) == Some((c, rest))
    ensures Escape(c)[0] != '"'
  {
    var s := Escape(c) + rest;
    assert s[|Escape(c)|..] == rest;
    if (c as int) < 32 && |Escape(c)| == 6 {
      HexBack(c as int / 16);
      HexBack(c as int % 16);
      assert s[2..4] == "00";
    }
  }

  lemma HexOnly(d: nat, c: char)
    requires d < 16 && HexValue(c) == Some(d)
    ensures HexDigit(d) == c
  {
  }

  /** No other spelling of a character is read. */
  lemma OneSpelling(s: string)
    requires ReadChar(s).Some?
    ensures var (c, rest) := ReadChar(s).value; s == Escape(c) + rest
  {
    var (c, rest) := ReadChar(s).value;
    if |Escape(c)| == 6 {
      HexOnly(c as int / 16, s[4]);
      HexOnly(c as int % 16, s[5]);
      assert s[2] == s[2..4][0] == '0' && s[3] == s[2..4][1] == '0';
      assert s[..6] == Escape(c);
    }
    assert s == s[..|s| - |rest|] + rest;
  }

  /** A text is read exactly from its canonical spelling: one text, one spelling. */
  lemma {:induction false} ReadsOnlyQuoted(s: string, text: string, rest: string)
    ensures ReadText(s) == Some((text, rest)) <==> s == Escaped(text) + "\"" + rest
    decreases |s|
  {
    if s == Escaped(text) + "\"" + rest { ReadQuoted(text, rest); }
    if ReadText(s) == Some((text, rest)) {
      hide Escape, ReadChar;
      if s[0] == '"' {
        assert s == "\"" + s[1..] && Escaped("") == "";
      } else {
        var (c, after) := ReadChar(s).value;
        OneSpelling(s);
        assert text == [c] + text[1..];
        ReadsOnlyQuoted(after, text[1..], rest);
        assert s == Escape(c) + (Escaped(text[1..]) + "\"" + rest);
      }
    }
  }

  lemma {:induction false} ReadQuoted(s: string, rest: string)
    ensures ReadText(Escaped(s) + "\"" + rest) == Some((s, rest))
  {
    hide Escape, ReadChar;
    var text := Escaped(s) + "\"" + rest;
    if s == "" {
      assert text == "\"" + rest && text[1..] == rest;
    } else {
      var tail := Escaped(s[1..]) + "\"" + rest;
      ReadEscape(s[0], tail);
      assert text == Escape(s[0]) + tail && text[0] == Escape(s[0])[0];
      ReadQuoted(s[1..], rest);
      assert [s[0]] + s[1..] == s;
    }
  }

  /** What may follow a value inside canonical text. */
  predicate Terminated(rest: string) { rest == "" || !Numeric(rest[0]) }

  lemma {:induction false} TokenStops(t: string, rest: string)
    requires AllNumeric(t) && Terminated(rest)
    ensures Token(t + rest) == t
  {
    if t == "" {
      assert t + rest == rest;
    } else {
      assert (t + rest)[1..] == t[1..] + rest;
      TokenStops(t[1..], rest);
      assert [t[0]] + t[1..] == t;
    }
  }

  predicate AllNumeric(t: string) { forall c | c in t :: Numeric(c) }

  lemma DigitsAreNumeric(t: string)
    requires AllDigits(t)
    ensures AllNumeric(t)
  {
    forall c | c in t ensures Numeric(c) { DigitIsNumeric(c); }
  }

  lemma DigitIsNumeric(c: char) requires IsDigit(c) ensures Numeric(c) {}

  lemma NumericAppend(a: string, b: string)
    ensures AllNumeric(a + b) <==> AllNumeric(a) && AllNumeric(b)
  {
    hide Numeric;
    forall c | c in a || c in b ensures c in a + b {}
  }

  lemma SignsAreNumeric()
    ensures AllNumeric("-") && AllNumeric("+") && AllNumeric(".") && AllNumeric("e") && AllNumeric("0.")
  {
  }

  /** A number's text is one token, begins with a digit or a sign, and is not empty. */
  predicate Numeral(t: string) {
    t != "" && (t[0] == '-' || IsDigit(t[0])) && AllNumeric(t)
  }

  lemma SignedNumeral(negative: bool, body: string)
    requires body != "" && IsDigit(body[0]) && AllNumeric(body)
    ensures Numeral(Signed(negative, body))
  {
    hide AllNumeric;
    SignsAreNumeric();
    NumericAppend("-", body);
  }

  lemma EcmaIsNumeral(d: Decimal)
    requires Normal(d)
    ensures Numeral(Ecma(d))
  {
    hide AllNumeric, Positional, Mantissa, Numeral, Signed;
    if d.digits == "" {
      DigitsAreNumeric("0");
      SignedNumeral(false, "0");
      assert Signed(false, "0") == "0" by { Plain("0"); }
    } else if -6 < d.point <= 21 {
      PositionalNumeral(d.digits, d.point);
      SignedNumeral(d.negative, Positional(d.digits, d.point));
    } else {
      ScientificNumeral(d.digits, d.point - 1);
      SignedNumeral(d.negative, Mantissa(d.digits) + "e" + Exponent(d.point - 1));
    }
  }

  lemma Plain(body: string) ensures Signed(false, body) == body {}

  lemma ScientificNumeral(digits: string, e: int)
    requires AllDigits(digits) && digits != ""
    ensures var p := Mantissa(digits) + "e" + Exponent(e); p != "" && IsDigit(p[0]) && AllNumeric(p)
  {
    hide AllNumeric;
    SignsAreNumeric();
    DigitsAreNumeric(digits[..1]);
    DigitsAreNumeric(digits[1..]);
    DigitsAreNumeric(digits);
    DigitsAreNumeric(Dec(if e >= 0 then e else -e));
    NumericAppend(if e >= 0 then "+" else "-", Dec(if e >= 0 then e else -e));
    NumericAppend(digits[..1], ".");
    NumericAppend(digits[..1] + ".", digits[1..]);
    NumericAppend(Mantissa(digits), "e");
    NumericAppend(Mantissa(digits) + "e", Exponent(e));
    assert digits[0] in digits;
  }

  lemma PositionalNumeral(digits: string, point: int)
    requires AllDigits(digits) && digits != ""
    ensures var p := Positional(digits, point); p != "" && IsDigit(p[0]) && AllNumeric(p)
  {
    hide AllNumeric;
    SignsAreNumeric();
    DigitsAreNumeric(digits);
    assert digits[0] in digits;
    if point >= |digits| {
      DigitsAreNumeric(Zeros(point - |digits|));
      NumericAppend(digits, Zeros(point - |digits|));
    } else if point > 0 {
      DigitsAreNumeric(digits[..point]);
      DigitsAreNumeric(digits[point..]);
      NumericAppend(digits[..point], ".");
      NumericAppend(digits[..point] + ".", digits[point..]);
    } else {
      DigitsAreNumeric(Zeros(-point) + digits);
      NumericAppend("0.", Zeros(-point) + digits);
    }
  }

  lemma WholeIsNumeral(i: int)
    ensures Numeral(Whole(i))
  {
    var n: nat := if i >= 0 then i else -i;
    DigitsAreNumeric(Dec(n));
    assert Dec(n)[0] in Dec(n);
    SignedNumeral(i < 0, Dec(n));
  }

  lemma StartsANumber(c: char)
    requires c == '-' || IsDigit(c)
    ensures Numeric(c) && c !in "ntf\"[{"
  {
  }

  /** A number's text, read back in any context. */
  lemma ReadNumeralBack(t: string, rest: string, d: Decimal)
    requires Numeral(t) && ReadNumber(t) == Some(d) && Terminated(rest)
    ensures ReadValue(t + rest) == Some((Float(d), rest))
  {
    hide ReadNumber, Numeric, IsDigit, Token;
    var s := t + rest;
    assert s[0] == t[0];
    StartsANumber(t[0]);
    TokenStops(t, rest);
    assert s[|t|..] == rest;
  }

  lemma NumberBack(v: Json, rest: string)
    requires WellFormed(v) && (v.Integer? || v.Float?) && Terminated(rest)
    ensures ReadValue(Canonical(v) + rest) == Some((Norm(v), rest))
    ensures Numeral(Canonical(v))
  {
    hide ReadValue, ReadNumber, Numeral, Terminated, Ecma, Number, Whole;
    if v.Integer? {
      WholeIsNumeral(v.i);
      ReadWhole(v.i);
      ReadNumeralBack(Whole(v.i), rest, DecimalOf(v.i));
    } else {
      NumberIsEcma(v.d);
      EcmaIsNumeral(v.d);
      ReadEcma(v.d);
      ReadNumeralBack(Ecma(v.d), rest, v.d);
    }
  }

  /** A value's text never begins like the end of a list or a dictionary. */
  lemma Starts(v: Json)
    requires WellFormed(v)
    ensures Canonical(v) != "" && Canonical(v)[0] != ']' && Canonical(v)[0] != '}'
  {
    if v.Integer? || v.Float? {
      NumberBack(v, "");
      StartsAValue(Canonical(v));
    }
  }

  lemma StartsAValue(t: string)
    requires Numeral(t)
    ensures t[0] != ']' && t[0] != '}'
  {
  }

  lemma JoinedFrom(texts: seq<string>, k: nat)
    requires k < |texts|
    ensures Joined(texts[k..]) ==
      texts[k] + if k + 1 == |texts| then "" else "," + Joined(texts[k + 1..])
  {
    assert texts[k..][1..] == texts[k + 1..];
  }

  predicate ItemTexts(items: seq<Json>, texts: seq<string>, norms: seq<Json>) {
    |texts| == |items| == |norms| && forall i | 0 <= i < |items| ::
      WellFormed(items[i]) && texts[i] == Canonical(items[i]) && norms[i] == Norm(items[i])
  }

  predicate MemberTexts(ms: seq<(string, Json)>, texts: seq<string>, norms: seq<(string, Json)>) {
    |texts| == |ms| == |norms| && forall i | 0 <= i < |ms| ::
      WellFormed(ms[i].1) && texts[i] == Quoted(ms[i].0) + ":" + Canonical(ms[i].1)
      && norms[i] == (ms[i].0, Norm(ms[i].1))
  }

  lemma {:induction false} ItemsBack(v: Json, texts: seq<string>, norms: seq<Json>, k: nat, rest: string)
    requires v.Array? && ItemTexts(v.items, texts, norms) && k < |texts|
    ensures ReadItems(Joined(texts[k..]) + "]" + rest) == Some((norms[k..], rest))
    decreases v, 0, |texts| - k
  {
    hide ReadValue, Canonical, Joined, WellFormed, Norm;
    JoinedFrom(texts, k);
    if k + 1 == |texts| {
      ParseBack(v.items[k], "]" + rest);
      assert texts[k] + "" + "]" + rest == texts[k] + ("]" + rest);
      assert ("]" + rest)[1..] == rest;
      assert norms[k..] == [norms[k]];
    } else {
      var next := Joined(texts[k + 1..]) + "]" + rest;
      ParseBack(v.items[k], "," + next);
      assert texts[k] + ("," + Joined(texts[k + 1..])) + "]" + rest == texts[k] + ("," + next);
      assert ("," + next)[1..] == next;
      ItemsBack(v, texts, norms, k + 1, rest);
      assert norms[k..] == [norms[k]] + norms[k + 1..];
    }
  }

  lemma MemberBack(v: Json, m: (string, Json), rest: string)
    requires v.Object? && m in v.members && WellFormed(m.1) && Terminated(rest)
    ensures ReadMember(Quoted(m.0) + ":" + Canonical(m.1) + rest) == Some(((m.0, Norm(m.1)), rest))
    decreases v, 0, 0
  {
    hide ReadValue, Canonical, WellFormed, Norm, ReadText, Escaped;
    var tail := ":" + (Canonical(m.1) + rest);
    ReadQuoted(m.0, tail);
    ParseBack(m.1, rest);
    var s := Quoted(m.0) + ":" + Canonical(m.1) + rest;
    assert s[0] == '"' && s[1..] == Escaped(m.0) + "\"" + tail;
    assert tail[1..] == Canonical(m.1) + rest;
  }

  lemma {:induction false} MembersBack(
      v: Json, ms: seq<(string, Json)>, texts: seq<string>, norms: seq<(string, Json)>, k: nat, rest: string)
    requires v.Object? && (forall m | m in ms :: m in v.members) && MemberTexts(ms, texts, norms) && k < |texts|
    ensures ReadMembers(Joined(texts[k..]) + "}" + rest) == Some((norms[k..], rest))
    decreases v, 1, |texts| - k
  {
    hide ReadMember, Canonical, Joined, WellFormed, Norm, Quoted;
    JoinedFrom(texts, k);
    assert ms[k] in ms;
    if k + 1 == |texts| {
      MemberBack(v, ms[k], "}" + rest);
      assert texts[k] + "" + "}" + rest == texts[k] + ("}" + rest);
      assert ("}" + rest)[1..] == rest;
      assert norms[k..] == [norms[k]];
    } else {
      var next := Joined(texts[k + 1..]) + "}" + rest;
      MemberBack(v, ms[k], "," + next);
      assert texts[k] + ("," + Joined(texts[k + 1..])) + "}" + rest == texts[k] + ("," + next);
      assert ("," + next)[1..] == next;
      MembersBack(v, ms, texts, norms, k + 1, rest);
      assert norms[k..] == [norms[k]] + norms[k + 1..];
    }
  }

  /** Canonical text is unambiguous: in any context the parser recovers exactly the value it was printed from. */
  lemma {:induction false} ParseBack(v: Json, rest: string)
    requires WellFormed(v) && Terminated(rest)
    ensures ReadValue(Canonical(v) + rest) == Some((Norm(v), rest))
    decreases v, 2, 0
  {
    match v
    case Null =>
      assert ("null" + rest)[4..] == rest;
    case Bool(b) =>
      assert ("true" + rest)[4..] == rest && ("false" + rest)[5..] == rest;
    case Integer(_) => NumberBack(v, rest);
    case Float(_) => NumberBack(v, rest);
    case Text(t) => TextBack(t, rest);
    case Array(items) => ArrayBack(v, rest);
    case Object(ms) => ObjectBack(v, rest);
  }

  lemma TextBack(t: string, rest: string)
    ensures ReadValue(Quoted(t) + rest) == Some((Text(t), rest))
  {
    ReadQuoted(t, rest);
    assert (Quoted(t) + rest)[1..] == Escaped(t) + "\"" + rest;
  }

  lemma ReadBracket(inner: string)
    ensures ReadValue("[" + inner) ==
      if inner != "" && inner[0] == ']' then Some((Array([]), inner[1..]))
      else match ReadItems(inner) case None => None case Some(t) => Some((Array(t.0), t.1))
  {
    hide ReadItems;
    assert ("[" + inner)[1..] == inner;
  }

  lemma ReadBrace(inner: string)
    ensures ReadValue("{" + inner) ==
      if inner != "" && inner[0] == '}' then Some((Object([]), inner[1..]))
      else match ReadMembers(inner) case None => None case Some(t) => Some((Object(t.0), t.1))
  {
    hide ReadMembers;
    assert ("{" + inner)[1..] == inner;
  }

  /** A list's text and its norm, item by item. */
  lemma ArrayParts(v: Json) returns (texts: seq<string>, norms: seq<Json>)
    requires v.Array? && WellFormed(v)
    ensures ItemTexts(v.items, texts, norms)
    ensures Canonical(v) == "[" + Joined(texts) + "]" && Norm(v) == Array(norms)
  {
    hide Joined;
    texts := seq(|v.items|, k requires 0 <= k < |v.items| => Canonical(v.items[k]));
    norms := seq(|v.items|, k requires 0 <= k < |v.items| => Norm(v.items[k]));
  }

  lemma ArrayBack(v: Json, rest: string)
    requires v.Array? && WellFormed(v) && Terminated(rest)
    ensures ReadValue(Canonical(v) + rest) == Some((Norm(v), rest))
    decreases v, 1, 0
  {
    hide ReadValue, ReadItems, Joined, Canonical, Norm, WellFormed, Terminated;
    var texts, norms := ArrayParts(v);
    var inner := Joined(texts) + "]" + rest;
    ReadBracket(inner);
    assert Canonical(v) + rest == "[" + inner;
    if texts == [] {
      NothingJoined(texts);
      assert inner == "]" + rest && inner[1..] == rest;
    } else {
      ItemsBack(v, texts, norms, 0, rest);
      assert texts[0..] == texts && norms[0..] == norms;
      JoinedFrom(texts, 0);
      Starts(v.items[0]);
      assert inner[0] == texts[0][0];
    }
  }

  lemma NothingJoined(texts: seq<string>) requires texts == [] ensures Joined(texts) == "" {}

  /** A dictionary's text and its norm, item by item in written order. */
  lemma ObjectParts(v: Json) returns (ms: seq<(string, Json)>, texts: seq<string>, norms: seq<(string, Json)>)
    requires v.Object? && WellFormed(v)
    ensures ms == InOrder(v.members) && |ms| == |v.members| && forall m | m in ms :: m in v.members
    ensures MemberTexts(ms, texts, norms)
    ensures Canonical(v) == "{" + Joined(texts) + "}" && Norm(v) == Object(norms)
  {
    hide Joined, Quoted, Escaped;
    ms := InOrder(v.members);
    assert forall k | 0 <= k < |ms| :: ms[k] in ms;
    texts := seq(|ms|, k requires 0 <= k < |ms| => Quoted(ms[k].0) + ":" + Canonical(ms[k].1));
    norms := seq(|ms|, k requires 0 <= k < |ms| => (ms[k].0, Norm(ms[k].1)));
  }

  lemma ObjectBack(v: Json, rest: string)
    requires v.Object? && WellFormed(v) && Terminated(rest)
    ensures ReadValue(Canonical(v) + rest) == Some((Norm(v), rest))
    decreases v, 1, 1 + |v.members|
  {
    hide ReadValue, ReadMembers, Joined, Quoted, Canonical, Norm, WellFormed, Terminated, InOrder;
    var ms, texts, norms := ObjectParts(v);
    var inner := Joined(texts) + "}" + rest;
    ReadBrace(inner);
    assert Canonical(v) + rest == "{" + inner;
    if ms == [] {
      NothingJoined(texts);
      assert inner == "}" + rest && inner[1..] == rest;
    } else {
      MembersBack(v, ms, texts, norms, 0, rest);
      assert texts[0..] == texts && norms[0..] == norms;
      JoinedFrom(texts, 0);
      QuotedStarts(ms[0].0);
      assert inner[0] == texts[0][0] == '"';
    }
  }

  lemma QuotedStarts(t: string) ensures Quoted(t) != "" && Quoted(t)[0] == '"' {}

  // --- Consequences -----------------------------------------------------------------------

  /** Equal texts come from values that are equal up to dictionary order and 1 against 1.0. */
  lemma EqualTextsEqualValues(v: Json, w: Json)
    requires WellFormed(v) && WellFormed(w) && Canonical(v) == Canonical(w)
    ensures Norm(v) == Norm(w)
  {
    ParseBack(v, "");
    ParseBack(w, "");
    assert Canonical(v) + "" == Canonical(w) + "";
  }

  /** Whole numbers below 1e21; larger ones are printed in full, where a float would have an exponent. */
  predicate Moderate(v: Json) {
    match v
    case Integer(i) => 0 - TenTo(21) < i < TenTo(21)
    case Array(items) => forall i | 0 <= i < |items| :: Moderate(items[i])
    case Object(ms) => forall i | 0 <= i < |ms| :: Moderate(ms[i].1)
    case _ => true
  }

  lemma {:induction false} AscendingIsSorted(ms: seq<(string, Json)>)
    requires Ordering.Ascending(NameKey, ms)
    ensures Ordering.Sorted(NameKey, ms) == ms
  {
    if ms != [] {
      AscendingIsSorted(ms[1..]);
      assert ms == [ms[0]] + ms[1..];
    }
  }

  lemma InOrderAscends(ms: seq<(string, Json)>)
    ensures Ordering.Ascending(NameKey, InOrder(ms))
  {
    Ordering.SortedAscends(NameKey, ms);
  }

  lemma SameNameSameItem(ms: seq<(string, Json)>, x: (string, Json), y: (string, Json))
    requires DistinctNames(ms) && x in ms && y in ms
    ensures x.0 == y.0 ==> x == y
  {
    var i :| 0 <= i < |ms| && ms[i] == x;
    var j :| 0 <= j < |ms| && ms[j] == y;
  }

  lemma {:induction false} OnceEach(ms: seq<(string, Json)>, m: (string, Json))
    requires DistinctNames(ms)
    ensures multiset(ms)[m] <= 1
  {
    if ms != [] {
      assert ms == [ms[0]] + ms[1..];
      OnceEach(ms[1..], m);
      assert ms[0] !in ms[1..];
    }
  }

  lemma TwiceCounts(r: seq<(string, Json)>, i: nat, j: nat)
    requires i < j < |r|
    ensures r[i] == r[j] ==> multiset(r)[r[i]] >= 2
  {
    assert r == r[..j] + [r[j]] + r[j + 1..];
    assert r[i] in r[..j];
  }

  /** Reordered names stay distinct. */
  lemma InOrderDistinct(ms: seq<(string, Json)>)
    requires DistinctNames(ms)
    ensures DistinctNames(InOrder(ms))
  {
    var r := InOrder(ms);
    forall i, j | 0 <= i < j < |r| ensures r[i].0 != r[j].0 {
      assert r[i] in r && r[j] in r;
      SameNameSameItem(ms, r[i], r[j]);
      TwiceCounts(r, i, j);
      OnceEach(ms, r[i]);
    }
  }

  /** Normalised items are those of the sorted dictionary, and sorting them again changes nothing. */
  lemma NormKeepsOrder(ms: seq<(string, Json)>, norms: seq<(string, Json)>)
    requires |norms| == |ms| && forall i | 0 <= i < |ms| :: norms[i].0 == InOrder(ms)[i].0
    ensures InOrder(norms) == norms
  {
    InOrderAscends(ms);
    forall i, j | 0 <= i < j < |norms| ensures Ordering.AtMost(NameKey(norms[i]), NameKey(norms[j])) {
      assert Ordering.AtMost(NameKey(InOrder(ms)[i]), NameKey(InOrder(ms)[j]));
    }
    AscendingIsSorted(norms);
  }

  /** A normalised value prints as the value does. */
  lemma {:induction false} NormPrintsAlike(v: Json)
    requires WellFormed(v) && Moderate(v)
    ensures WellFormed(Norm(v)) && Canonical(Norm(v)) == Canonical(v)
  {
    match v
    case Integer(i) =>
      WholeIsEcma(i);
      NumberIsEcma(DecimalOf(i));
    case Array(items) =>
      forall i | 0 <= i < |items| ensures WellFormed(Norm(items[i])) && Canonical(Norm(items[i])) == Canonical(items[i]) {
        NormPrintsAlike(items[i]);
      }
      ArrayPrintsAlike(v);
    case Object(ms) =>
      forall i | 0 <= i < |ms| ensures WellFormed(Norm(ms[i].1)) && Canonical(Norm(ms[i].1)) == Canonical(ms[i].1) {
        NormPrintsAlike(ms[i].1);
      }
      ObjectPrintsAlike(v);
    case _ =>
  }

  lemma ArrayPrintsAlike(v: Json)
    requires v.Array? && WellFormed(v)
    requires forall i | 0 <= i < |v.items| ::
      WellFormed(Norm(v.items[i])) && Canonical(Norm(v.items[i])) == Canonical(v.items[i])
    ensures WellFormed(Norm(v)) && Canonical(Norm(v)) == Canonical(v)
  {
    hide Joined, Canonical, Norm;
    var texts, norms := ArrayParts(v);
    assert WellFormed(Array(norms));
    var again, _ := ArrayParts(Array(norms));
    assert again == texts;
  }

  lemma ObjectPrintsAlike(v: Json)
    requires v.Object? && WellFormed(v)
    requires forall i | 0 <= i < |v.members| ::
      WellFormed(Norm(v.members[i].1)) && Canonical(Norm(v.members[i].1)) == Canonical(v.members[i].1)
    ensures WellFormed(Norm(v)) && Canonical(Norm(v)) == Canonical(v)
  {
    hide Joined, Quoted, Canonical, Norm, InOrder;
    var ms, texts, norms := ObjectParts(v);
    forall k | 0 <= k < |ms| ensures WellFormed(norms[k].1) && Canonical(norms[k].1) == Canonical(ms[k].1) {
      assert ms[k] in v.members;
      var i :| 0 <= i < |v.members| && v.members[i] == ms[k];
    }
    InOrderDistinct(v.members);
    NormKeepsOrder(v.members, norms);
    assert WellFormed(Object(norms));
    var _, again, _ := ObjectParts(Object(norms));
    assert again == texts;
  }

  /** The text, and so the digest, tells values apart exactly up to dictionary order and 1 against 1.0. */
  lemma TextsEqualIff(v: Json, w: Json)
    requires WellFormed(v) && WellFormed(w) && Moderate(v) && Moderate(w)
    ensures Canonical(v) == Canonical(w) <==> Norm(v) == Norm(w)
  {
    NormPrintsAlike(v);
    NormPrintsAlike(w);
    if Canonical(v) == Canonical(w) { EqualTextsEqualValues(v, w); }
  }

  /** The order in which a dictionary was filled does not reach the text. */
  lemma InsertionOrderIsIrrelevant(ms: seq<(string, Json)>, ns: seq<(string, Json)>)
    requires multiset(ms) == multiset(ns) && WellFormed(Object(ms)) && WellFormed(Object(ns))
    ensures Canonical(Object(ms)) == Canonical(Object(ns))
  {
    forall x, y | x in ms && y in ms && NameKey(x) == NameKey(y) ensures x == y {
      KeysAreDistinct(x.0, y.0);
      var i :| 0 <= i < |ms| && ms[i] == x;
      var j :| 0 <= j < |ms| && ms[j] == y;
      assert i == j;
    }
    Ordering.SortedForgetsOrder(NameKey, ms, ns);
  }

  /** Names are written in the order of their UTF-16 code units. */
  lemma NamesAscendByUnits(ms: seq<(string, Json)>, i: nat, j: nat)
    requires i < j < |ms|
    ensures Ordering.AtMost(Units(InOrder(ms)[i].0), Units(InOrder(ms)[j].0))
  {
    InOrderAscends(ms);
    assert Ordering.AtMost(NameKey(InOrder(ms)[i]), NameKey(InOrder(ms)[j]));
    BytesCompareAsUnits(Units(InOrder(ms)[i].0), Units(InOrder(ms)[j].0));
  }
}
