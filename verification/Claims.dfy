/**
 Sealing a candidate's full claim into curriculum hypotheses.

 The payload (the candidate's JSON text) is cut into chunks of 1024 characters; each
 becomes one hypothesis `nox:candidate-claim-v1|<hash>|<i>|<n>|<chunk>`. The reader
 below is the other end of that protocol: it recovers the payload from a plan's
 hypotheses, whatever their order and whatever else stands between them.
 */
module Claims {
  import opened Sequences
  import opened Decimals

  const PREFIX := "nox:candidate-claim-v1|"
  const CHUNK := 1024

  /** JSON text is never empty. */
  type JsonText = s: string | s != "" witness "{}"

  function ChunkCount(payload: string): nat { (|payload| + CHUNK - 1) / CHUNK }

  function Chunk(payload: string, i: nat): (c: string)
    requires i < ChunkCount(payload)
    ensures 0 < |c| <= CHUNK
  {
    if (i + 1) * CHUNK < |payload| then payload[i * CHUNK..(i + 1) * CHUNK] else payload[i * CHUNK..]
  }

  function Fragment(hash: string, index: nat, total: nat, chunk: string): string {
    PREFIX + (hash + "|" + (Dec(index) + "|" + (Dec(total) + "|" + chunk)))
  }

  function Fragments(hash: string, payload: JsonText): (r: seq<string>)
    ensures |r| == ChunkCount(payload) > 0
    ensures forall i | 0 <= i < |r| :: r[i] == Fragment(hash, i + 1, ChunkCount(payload), Chunk(payload, i))
  {
    seq(ChunkCount(payload), i requires 0 <= i < ChunkCount(payload) =>
      Fragment(hash, i + 1, ChunkCount(payload), Chunk(payload, i)))
  }

  // --- The reader -------------------------------------------------------------------------

  datatype Piece = Piece(hash: string, index: nat, total: nat, chunk: string)

  /** Splits at the first separator. */
  function UntilBar(s: string): (r: Option<(string, string)>)
    ensures r.Some? ==> '|' !in r.value.0 && s == r.value.0 + "|" + r.value.1
  {
    if s == "" then None
    else if s[0] == '|' then Some(("", s[1..]))
    else match UntilBar(s[1..])
      case None => None
      case Some(p) => Some(([s[0]] + p.0, p.1))
  }

  function Read(s: string): (r: Option<Piece>)
    ensures r.Some? ==> PREFIX <= s
  {
    if !(PREFIX <= s) then None
    else match UntilBar(s[|PREFIX|..])
      case None => None
      case Some(h) =>
        match UntilBar(h.1)
        case None => None
        case Some(i) =>
          match UntilBar(i.1)
          case None => None
          case Some(n) =>
            if AllDigits(i.0) && AllDigits(n.0) then Some(Piece(h.0, Undec(i.0), Undec(n.0), n.1)) else None
  }

  /** The first piece with this hash and index. */
  function Find(hypotheses: seq<string>, hash: string, index: nat): (r: Option<Piece>)
    ensures r.Some? ==> exists h :: h in hypotheses && Read(h) == r && r.value.hash == hash && r.value.index == index
    ensures r.None? ==> forall h | h in hypotheses && Read(h).Some? ::
                          !(Read(h).value.hash == hash && Read(h).value.index == index)
  {
    if hypotheses == [] then None
    else
      assert hypotheses == [hypotheses[0]] + hypotheses[1..];
      var p := Read(hypotheses[0]);
      if p.Some? && p.value.hash == hash && p.value.index == index then p
      else Find(hypotheses[1..], hash, index)
  }

  function Assemble(hypotheses: seq<string>, hash: string, index: nat, total: nat): Option<string>
    decreases total - index
  {
    if index > total then Some("")
    else match Find(hypotheses, hash, index)
      case None => None
      case Some(p) =>
        match Assemble(hypotheses, hash, index + 1, total)
        case None => None
        case Some(rest) => Some(p.chunk + rest)
  }

  /** The payload sealed for `hash`, or nothing when a piece is missing. */
  function Recover(hypotheses: seq<string>, hash: string): Option<string> {
    match Find(hypotheses, hash, 1)
    case None => None
    case Some(p) => Assemble(hypotheses, hash, 1, p.total)
  }

  // --- Round trip -------------------------------------------------------------------------

  lemma {:induction false} UntilBarStops(a: string, b: string)
    requires '|' !in a
    ensures UntilBar(a + "|" + b) == Some((a, b))
  {
    var s := a + "|" + b;
    if a == "" {
      assert s[1..] == b;
    } else {
      UntilBarStops(a[1..], b);
      assert s[1..] == a[1..] + "|" + b;
      assert [a[0]] + a[1..] == a;
    }
  }

  /** A fragment is read back as it was printed, even when its chunk contains separators. */
  lemma ReadFragment(hash: string, index: nat, total: nat, chunk: string)
    requires '|' !in hash
    ensures Read(Fragment(hash, index, total, chunk)) == Some(Piece(hash, index, total, chunk))
  {
    var s := Fragment(hash, index, total, chunk);
    assert s[|PREFIX|..] == hash + "|" + (Dec(index) + "|" + (Dec(total) + "|" + chunk));
    UntilBarStops(hash, Dec(index) + "|" + (Dec(total) + "|" + chunk));
    UntilBarStops(Dec(index), Dec(total) + "|" + chunk);
    UntilBarStops(Dec(total), chunk);
    UndecDec(index);
    UndecDec(total);
  }

  /** The hypotheses hold every fragment of the claim, and no other fragment under its hash. */
  ghost predicate Carries(hypotheses: seq<string>, hash: string, payload: JsonText) {
    && (forall f | f in Fragments(hash, payload) :: f in hypotheses)
    && (forall h | h in hypotheses && Read(h).Some? && Read(h).value.hash == hash :: h in Fragments(hash, payload))
  }

  /** Reading any fragment of this claim gives its piece. */
  lemma ReadOwn(hash: string, payload: JsonText, i: nat)
    requires '|' !in hash && i < ChunkCount(payload)
    ensures Read(Fragments(hash, payload)[i]) == Some(Piece(hash, i + 1, ChunkCount(payload), Chunk(payload, i)))
  {
    ReadFragment(hash, i + 1, ChunkCount(payload), Chunk(payload, i));
  }

  lemma FindsChunk(hypotheses: seq<string>, hash: string, payload: JsonText, i: nat)
    requires '|' !in hash && Carries(hypotheses, hash, payload) && i < ChunkCount(payload)
    ensures Find(hypotheses, hash, i + 1) == Some(Piece(hash, i + 1, ChunkCount(payload), Chunk(payload, i)))
  {
    hide Read, Chunk, Fragment;
    var fs := Fragments(hash, payload);
    ReadOwn(hash, payload, i);
    assert fs[i] in fs && fs[i] in hypotheses;
    var p := Find(hypotheses, hash, i + 1);
    var h :| h in hypotheses && Read(h) == p && p.value.hash == hash && p.value.index == i + 1;
    assert h in fs;
    var j :| 0 <= j < |fs| && fs[j] == h;
    ReadOwn(hash, payload, j);
  }

  /** What is left of the payload once the first `i` chunks are read. */
  function Rest(payload: string, i: nat): string
    requires i <= ChunkCount(payload)
  {
    if i == ChunkCount(payload) then "" else payload[i * CHUNK..]
  }

  lemma RestEnds(payload: string) ensures Rest(payload, ChunkCount(payload)) == "" {}

  lemma RestSplits(payload: string, i: nat)
    requires i < ChunkCount(payload)
    ensures Rest(payload, i) == Chunk(payload, i) + Rest(payload, i + 1)
  {
  }

  lemma {:induction false} AssemblesRest(hypotheses: seq<string>, hash: string, payload: JsonText, i: nat)
    requires '|' !in hash && Carries(hypotheses, hash, payload) && i <= ChunkCount(payload)
    ensures Assemble(hypotheses, hash, i + 1, ChunkCount(payload))
         == Some(Rest(payload, i))
    decreases ChunkCount(payload) - i
  {
    hide Chunk, ChunkCount, Rest, Find, Carries, Fragments;
    if i < ChunkCount(payload) {
      FindsChunk(hypotheses, hash, payload, i);
      AssemblesRest(hypotheses, hash, payload, i + 1);
      assert Assemble(hypotheses, hash, i + 1, ChunkCount(payload)) == Some(Chunk(payload, i) + Rest(payload, i + 1));
      RestSplits(payload, i);
    } else {
      RestEnds(payload);
    }
  }

  lemma RecoverClaim(hypotheses: seq<string>, hash: string, payload: JsonText)
    requires '|' !in hash && Carries(hypotheses, hash, payload)
    ensures Recover(hypotheses, hash) == Some(payload)
  {
    FindsChunk(hypotheses, hash, payload, 0);
    AssemblesRest(hypotheses, hash, payload, 0);
    assert Rest(payload, 0) == payload;
  }

  /** A fragment stays within the 2048-character bound exactly while its two counters fit in 934 digits. */
  lemma FragmentLength(hash: string, index: nat, total: nat, chunk: string)
    requires |hash| == 64
    ensures |Fragment(hash, index, total, chunk)| == 90 + |Dec(index)| + |Dec(total)| + |chunk|
    ensures |chunk| == CHUNK ==>
      (|Fragment(hash, index, total, chunk)| <= 2048 <==> |Dec(index)| + |Dec(total)| <= 934)
  {
    assert |PREFIX| == 23;
  }
}
