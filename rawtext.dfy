// The plain-text reader (doc/rawtext.py): one chunk per line, nested by the
// indentation of the line. The reader keeps a stack of the chunk lists it
// appends to; in the model the stack is its height, since its entries are
// always the nodes on the rightmost path of the tree being built.

module RawText {
  import opened Values
  import opened LocalDoc
  import Defs

  // -------------------------------------------------------------------
  // Lines

  /** The characters `str.strip()` removes: those `str.isspace()` accepts. */
  predicate IsSpace(c: char)
  {
    c == ' ' || '\t' <= c <= '\r' || '\U{1C}' <= c <= '\U{1F}' || c == '\U{85}' || c == '\U{A0}'
    || c == '\U{1680}' || '\U{2000}' <= c <= '\U{200A}' || c == '\U{2028}' || c == '\U{2029}'
    || c == '\U{202F}' || c == '\U{205F}' || c == '\U{3000}'
  }

  /** The number of leading whitespace characters. */
  function Leading(s: string): (n: nat)
    ensures n <= |s|
  {
    if |s| == 0 || !IsSpace(s[0]) then 0 else 1 + Leading(s[1..])
  }

  /** `str.strip()`: the line without its leading and trailing whitespace
      (the line ending included), cut one character at a time. */
  function Strip(s: string): (r: string)
    ensures |r| <= |s|
    decreases |s|
  {
    if |s| > 0 && IsSpace(s[0]) then Strip(s[1..])
    else if |s| > 0 && IsSpace(s[|s| - 1]) then Strip(s[..|s| - 1])
    else s
  }

  /** `r` is `s` with its first `i` characters and some trailing ones cut,
      all of them whitespace, and starts and ends with a character that is
      not. */
  predicate StripsTo(s: string, i: nat, r: string)
  {
    i + |r| <= |s| && r == s[i..i + |r|]
    && (forall k :: 0 <= k < i ==> IsSpace(s[k]))
    && (forall k :: i + |r| <= k < |s| ==> IsSpace(s[k]))
    && (|r| > 0 ==> !IsSpace(r[0]) && !IsSpace(r[|r| - 1]))
  }

  /** What `strip` leaves is the slice of the line after its leading
      whitespace, up to the trailing whitespace: only whitespace is cut away,
      and what is left starts and ends with a character that is not. */
  lemma {:induction false} StripEnds(s: string)
    ensures StripsTo(s, Leading(s), Strip(s))
    decreases |s|
  {
    if |s| > 0 && IsSpace(s[0]) {
      StripEnds(s[1..]);
      StripFrontStep(s, Leading(s[1..]), Strip(s[1..]));
    } else if |s| > 0 && IsSpace(s[|s| - 1]) {
      var t := s[..|s| - 1];
      StripEnds(t);
      assert t[0] == s[0];
      StripBackStep(s, Strip(t));
    } else {
      assert s[0..|s|] == s;
    }
  }

  lemma StripFrontStep(s: string, i: nat, r: string)
    requires |s| > 0 && IsSpace(s[0]) && StripsTo(s[1..], i, r)
    ensures StripsTo(s, i + 1, r)
  {
    assert forall k :: 1 <= k < |s| ==> s[1..][k - 1] == s[k];
    assert s[1..][i..i + |r|] == s[i + 1..i + 1 + |r|];
  }

  lemma StripBackStep(s: string, r: string)
    requires |s| > 0 && IsSpace(s[|s| - 1]) && StripsTo(s[..|s| - 1], 0, r)
    ensures StripsTo(s, 0, r)
  {
    var t := s[..|s| - 1];
    assert forall k :: 0 <= k < |t| ==> t[k] == s[k];
    assert t[0..|r|] == s[0..|r|];
  }

  /** Python's floor division (`//`), which rounds toward minus infinity. */
  function FloorDiv(a: int, b: int): int
    requires b != 0
  {
    if b > 0 then a / b else (-a) / (-b)
  }

  /** The quotient `//` gives is the one whose multiple of `b` is nearest
      `a` on the side of minus infinity. */
  lemma FloorDivBounds(a: int, b: int)
    requires b != 0
    ensures var q := FloorDiv(a, b); b * q <= a < b * q + b || b * q + b < a <= b * q
  {
  }

  /** The level of a line: the characters `strip` removed, the line ending
      among them, divided by the indent; 0 when the indent is 0 (or None). */
  function Level(ind: int, line: string): (lev: int)
    ensures ind == 0 ==> lev == 0
  {
    if ind != 0 then FloorDiv(|line| - |Strip(line)|, ind) else 0
  }

  /** With a positive indent, a line's level is how many whole indents fit
      into its stripped whitespace. */
  lemma LevelBounds(ind: int, line: string)
    requires ind > 0
    ensures var lev := Level(ind, line); lev >= 0 && ind * lev <= |line| - |Strip(line)| < ind * lev + ind
  {
    var a := |line| - |Strip(line)|;
    var q := Level(ind, line);
    assert q == a / ind;
    FloorDivBounds(a, ind);
  }

  /** The key a reader stores the line under: `data` in this reader,
      `text` in the older one. */
  datatype Payload = Data | Text

  function PayloadKey(p: Payload): (key: string)
    ensures key != "id" && key != "chunks"
  {
    match p
    case Data => "data"
    case Text => "text"
  }

  /** The chunk made of the k-th line (counting from 1): its id and the
      stripped line. */
  function LineChunk(p: Payload, k: int, line: string): (c: Value)
    ensures Leaf(c) && forall f :: f in c.fields <==> f == "id" || f == PayloadKey(p)
    ensures c.fields["id"] == Int(k) && c.fields[PayloadKey(p)] == Str(Strip(line))
  {
    Dict(map["id" := Int(k), PayloadKey(p) := Str(Strip(line))])
  }

  // -------------------------------------------------------------------
  // The reading loop

  /** The reader's state between lines: the chunk forest, the stack height
      (the document at its bottom), `currlev`, `maxlev` and `chunkid`. */
  datatype ReadState = ReadState(chunks: seq<Value>, height: nat, curLev: int, maxLev: int, count: nat)

  /** The stack holds the document and then the rightmost path of the forest
      down to the last chunk's parent. */
  predicate ReadValid(s: ReadState)
  {
    s.height >= 1 && (if s.chunks == [] then s.height == 1 else RightDepth(s.chunks) == s.height)
  }

  const ReadStart := ReadState([], 1, 0, 0, 0)

  function Max(a: int, b: int): int
  {
    if a > b then a else b
  }

  /** Every chunk is a leaf when it is appended. */
  predicate Leaves(cs: seq<Value>)
  {
    forall k :: 0 <= k < |cs| ==> Leaf(cs[k])
  }

  /** One line, at level `lev` and made into `chunk`: a lower level pops one
      stack entry (however large the drop), a higher level pushes the last
      chunk of the top list (however large the rise), and the chunk goes to
      the top list. An empty stack, or a rise with no chunk to descend into,
      is an IndexError. */
  function ReadStep(s: ReadState, lev: int, chunk: Value): (r: Result<ReadState>)
    requires ReadValid(s)
    ensures r.Err? <==> (lev < s.curLev && s.height == 1) || (lev > s.curLev && s.chunks == [])
    ensures r.Err? ==> r.error == PyError(IndexError)
    ensures r.Ok? ==> r.value.count == s.count + 1 && r.value.curLev == lev && r.value.maxLev == Max(s.maxLev, lev)
    ensures r.Ok? ==> r.value.chunks != []
    ensures r.Ok? ==> r.value.height == if lev < s.curLev then s.height - 1 else if lev > s.curLev then s.height + 1 else s.height
  {
    if lev < s.curLev && s.height == 1 then Err(PyError(IndexError))
    else if lev > s.curLev && s.chunks == [] then Err(PyError(IndexError))
    else
      var h := if lev < s.curLev then s.height - 1 else if lev > s.curLev then s.height + 1 else s.height;
      Ok(ReadState(Place(s.chunks, h - 1, chunk), h, lev, Max(s.maxLev, lev), s.count + 1))
  }

  /** A step keeps the stack on the rightmost path. */
  lemma ReadStepValid(s: ReadState, lev: int, chunk: Value)
    requires ReadValid(s) && Leaf(chunk) && ReadStep(s, lev, chunk).Ok?
    ensures ReadValid(ReadStep(s, lev, chunk).value)
  {
    PlaceDepth(s.chunks, ReadStep(s, lev, chunk).value.height - 1, chunk);
  }

  /** A step lists the new chunk after all the chunks already read. */
  lemma ReadStepFlat(s: ReadState, lev: int, chunk: Value)
    requires ReadValid(s) && Leaf(chunk) && ReadStep(s, lev, chunk).Ok?
    ensures FlatAll(ReadStep(s, lev, chunk).value.chunks) == FlatAll(s.chunks) + [chunk]
  {
    PlaceFlat(s.chunks, ReadStep(s, lev, chunk).value.height - 1, chunk);
  }

  /** Lines, given by their levels and their chunks, read one after another
      from state `s`; the first error stops the run. */
  function ReadFrom(s: ReadState, levs: seq<int>, cs: seq<Value>): (r: Result<ReadState>)
    requires ReadValid(s) && |levs| == |cs| && Leaves(cs)
    ensures r.Ok? ==> ReadValid(r.value)
    ensures r.Err? ==> r.error == PyError(IndexError)
    decreases |cs|
  {
    if |cs| == 0 then Ok(s)
    else
      var t :- ReadStep(s, levs[0], cs[0]);
      ReadStepValid(s, levs[0], cs[0]);
      ReadFrom(t, levs[1..], cs[1..])
  }

  /** One line read after another: the run stops at the first line's
      error, or goes on from the state the first line leaves. */
  lemma ReadFromCons(s: ReadState, levs: seq<int>, cs: seq<Value>)
    requires ReadValid(s) && |levs| == |cs| > 0 && Leaves(cs)
    ensures ReadStep(s, levs[0], cs[0]).Err? ==> ReadFrom(s, levs, cs) == Err(PyError(IndexError))
    ensures ReadStep(s, levs[0], cs[0]).Ok? ==>
      ReadValid(ReadStep(s, levs[0], cs[0]).value)
      && ReadFrom(s, levs, cs) == ReadFrom(ReadStep(s, levs[0], cs[0]).value, levs[1..], cs[1..])
  {
    if ReadStep(s, levs[0], cs[0]).Ok? {
      ReadStepValid(s, levs[0], cs[0]);
    }
  }

  /** The levels of the lines. */
  function Levels(ind: int, lines: seq<string>): (r: seq<int>)
    ensures |r| == |lines|
    ensures ind == 0 ==> forall k :: 0 <= k < |r| ==> r[k] == 0
    decreases |lines|
  {
    if |lines| == 0 then [] else [Level(ind, lines[0])] + Levels(ind, lines[1..])
  }

  lemma {:induction false} LevelsAt(ind: int, lines: seq<string>)
    ensures forall k :: 0 <= k < |lines| ==> Levels(ind, lines)[k] == Level(ind, lines[k])
    decreases |lines|
  {
    if |lines| > 0 {
      LevelsAt(ind, lines[1..]);
      forall k | 1 <= k < |lines|
        ensures Levels(ind, lines)[k] == Level(ind, lines[k])
      {
        assert lines[1..][k - 1] == lines[k];
      }
    }
  }

  /** The chunks of the lines, in order, ids counting from 1. */
  function LineChunks(p: Payload, lines: seq<string>): (r: seq<Value>)
    ensures |r| == |lines| && Leaves(r)
  {
    seq(|lines|, k requires 0 <= k < |lines| => LineChunk(p, k + 1, lines[k]))
  }

  /** The chunk of the k-th line carries id k + 1 and the stripped line. */
  lemma LineChunksAt(p: Payload, lines: seq<string>)
    ensures forall k :: 0 <= k < |lines| ==> LineChunks(p, lines)[k] == LineChunk(p, k + 1, lines[k])
  {
  }

  /** The whole file read from the reader's initial state. */
  function ReadRun(ind: int, p: Payload, lines: seq<string>): (r: Result<ReadState>)
    ensures r.Ok? ==> ReadValid(r.value)
    ensures r.Err? ==> r.error == PyError(IndexError)
  {
    ReadFrom(ReadStart, Levels(ind, lines), LineChunks(p, lines))
  }

  /** The largest of the levels, or 0. */
  function MaxOf(levs: seq<int>): (m: int)
    ensures m >= 0
    decreases |levs|
  {
    if |levs| == 0 then 0 else Max(levs[0], MaxOf(levs[1..]))
  }

  /** `MaxOf` bounds every level, and a positive one is met. */
  lemma {:induction false} MaxOfIsMax(levs: seq<int>)
    ensures forall k :: 0 <= k < |levs| ==> levs[k] <= MaxOf(levs)
    ensures MaxOf(levs) > 0 ==> exists k :: 0 <= k < |levs| && levs[k] == MaxOf(levs)
    decreases |levs|
  {
    if |levs| > 0 {
      MaxOfIsMax(levs[1..]);
      forall k | 1 <= k < |levs|
        ensures levs[k] <= MaxOf(levs)
      {
        assert levs[1..][k - 1] == levs[k];
      }
      if MaxOf(levs) > 0 && MaxOf(levs) != levs[0] {
        var k :| 0 <= k < |levs[1..]| && levs[1..][k] == MaxOf(levs[1..]);
        assert levs[k + 1] == MaxOf(levs);
      }
    }
  }

  /** A read without error adds one chunk per line, and listing the tree in
      pre-order gives the new chunks after the old ones; `maxlev` becomes
      the largest level met. */
  lemma {:induction false} ReadFromLines(s: ReadState, levs: seq<int>, cs: seq<Value>)
    requires ReadValid(s) && s.maxLev >= 0 && |levs| == |cs| && Leaves(cs) && ReadFrom(s, levs, cs).Ok?
    ensures ReadFrom(s, levs, cs).value.count == s.count + |cs|
    ensures FlatAll(ReadFrom(s, levs, cs).value.chunks) == FlatAll(s.chunks) + cs
    ensures ReadFrom(s, levs, cs).value.maxLev == Max(s.maxLev, MaxOf(levs))
    decreases |cs|
  {
    if |cs| == 0 {
      assert FlatAll(s.chunks) + cs == FlatAll(s.chunks);
    } else {
      ReadFromCons(s, levs, cs);
      var t := ReadStep(s, levs[0], cs[0]).value;
      ReadStepFlat(s, levs[0], cs[0]);
      LeavesTail(cs);
      ReadFromLines(t, levs[1..], cs[1..]);
      ReadLinesJoin(s, t, levs, cs, ReadFrom(s, levs, cs).value);
    }
  }

  lemma LeavesTail(cs: seq<Value>)
    requires |cs| > 0 && Leaves(cs)
    ensures Leaf(cs[0]) && Leaves(cs[1..])
  {
    assert forall k :: 0 <= k < |cs| - 1 ==> cs[1..][k] == cs[k + 1];
  }

  /** The first line's step followed by the rest of the read. */
  lemma ReadLinesJoin(s: ReadState, t: ReadState, levs: seq<int>, cs: seq<Value>, r: ReadState)
    requires |levs| == |cs| > 0
    requires t.count == s.count + 1 && t.maxLev == Max(s.maxLev, levs[0])
    requires FlatAll(t.chunks) == FlatAll(s.chunks) + [cs[0]]
    requires r.count == t.count + |cs[1..]| && FlatAll(r.chunks) == FlatAll(t.chunks) + cs[1..]
    requires r.maxLev == Max(t.maxLev, MaxOf(levs[1..]))
    ensures r.count == s.count + |cs| && FlatAll(r.chunks) == FlatAll(s.chunks) + cs
    ensures r.maxLev == Max(s.maxLev, MaxOf(levs))
  {
    assert [cs[0]] + cs[1..] == cs;
    assert FlatAll(s.chunks) + [cs[0]] + cs[1..] == FlatAll(s.chunks) + ([cs[0]] + cs[1..]);
  }

  /** A read of the whole file lists its lines in order, ids 1 to n, and
      `maxlev` is the largest level of a line. */
  lemma ReadRunLines(ind: int, p: Payload, lines: seq<string>)
    requires ReadRun(ind, p, lines).Ok?
    ensures ReadRun(ind, p, lines).value.count == |lines|
    ensures FlatAll(ReadRun(ind, p, lines).value.chunks) == LineChunks(p, lines)
    ensures ReadRun(ind, p, lines).value.maxLev == MaxOf(Levels(ind, lines))
  {
    ReadFromLines(ReadStart, Levels(ind, lines), LineChunks(p, lines));
    assert FlatAll([]) == [];
  }

  /** With every line at level 0 the read never fails and the chunks form a
      flat list. */
  lemma {:induction false} FlatFrom(s: ReadState, levs: seq<int>, cs: seq<Value>)
    requires ReadValid(s) && s.height == 1 && s.curLev == 0 && s.maxLev == 0
    requires |levs| == |cs| && Leaves(cs) && forall k :: 0 <= k < |levs| ==> levs[k] == 0
    ensures ReadFrom(s, levs, cs) == Ok(ReadState(s.chunks + cs, 1, 0, 0, s.count + |cs|))
    decreases |cs|
  {
    if |cs| == 0 {
      assert s.chunks + cs == s.chunks;
    } else {
      var t := ReadState(s.chunks + [cs[0]], 1, 0, 0, s.count + 1);
      assert ReadStep(s, levs[0], cs[0]) == Ok(t);
      ReadFromCons(s, levs, cs);
      FlatFrom(t, levs[1..], cs[1..]);
      assert t.chunks + cs[1..] == s.chunks + cs;
    }
  }

  /** Without indent, a file is read as a flat list of its lines. */
  lemma FlatFile(p: Payload, lines: seq<string>)
    ensures ReadRun(0, p, lines) == Ok(ReadState(LineChunks(p, lines), 1, 0, 0, |lines|))
  {
    FlatStart(Levels(0, lines), LineChunks(p, lines));
  }

  /** Level-0 lines read from the start give the chunks in order. */
  lemma FlatStart(levs: seq<int>, cs: seq<Value>)
    requires |levs| == |cs| && Leaves(cs) && forall k :: 0 <= k < |levs| ==> levs[k] == 0
    ensures ReadFrom(ReadStart, levs, cs) == Ok(ReadState(cs, 1, 0, 0, |cs|))
  {
    FlatFrom(ReadStart, levs, cs);
    assert ReadStart.chunks + cs == cs;
  }

  /** A first line above level 0 has no chunk to descend into. */
  lemma FirstLineIndented(ind: int, p: Payload, lines: seq<string>)
    requires |lines| > 0 && Level(ind, lines[0]) > 0
    ensures ReadRun(ind, p, lines) == Err(PyError(IndexError))
  {
    ReadFromCons(ReadStart, Levels(ind, lines), LineChunks(p, lines));
  }

  /** The level counts every character `strip` removes, the newline that
      ends a line included: with an indent of 1, a file whose first line
      ends in a newline always fails. */
  lemma IndentOneNewline(p: Payload, lines: seq<string>)
    requires |lines| > 0 && |lines[0]| > 0 && lines[0][|lines[0]| - 1] == '\n'
    ensures ReadRun(1, p, lines) == Err(PyError(IndexError))
  {
    var s := lines[0];
    StripEnds(s);
    LevelBounds(1, s);
    FirstLineIndented(1, p, lines);
  }

  // -------------------------------------------------------------------
  // The document

  /** `"tree" if maxlev else "sequential"`. */
  function TypeTag(maxLev: int): (t: string)
    ensures maxLev != 0 <==> Defs.DocTypeOfTag(t) == Some(Defs.Tree)
    ensures maxLev == 0 ==> Defs.DocTypeOfTag(t).None?
  {
    if maxLev != 0 then "tree" else "sequential"
  }

  /** The document the reader returns: a header with the document id and
      type, and the chunk forest. */
  function RawDoc(docid: string, s: ReadState): (r: Value)
    ensures r.Dict? && r.fields.Keys == {"header", "chunks"} && r.fields["chunks"] == List(s.chunks)
    ensures r.fields["header"].Dict? && HeaderType(r.fields["header"].fields) == Ok(Str(TypeTag(s.maxLev)))
    ensures DocTypeOfHeader(Str(TypeTag(s.maxLev))) == if s.maxLev != 0 then Ok(Defs.Tree) else Err(InvalidDocument)
  {
    Dict(map["header" := Dict(map["document" := Dict(map["id" := Str(docid), "type" := Str(TypeTag(s.maxLev))])]),
             "chunks" := List(s.chunks)])
  }

  /** `read_file` over the lines of the file; `docid` stands for the uuid
      the reader draws. */
  function ReadDoc(ind: int, lines: seq<string>, docid: string): (r: Result<Value>)
    ensures r.Ok? <==> ReadRun(ind, Data, lines).Ok?
    ensures r.Err? ==> r.error == PyError(IndexError)
  {
    var s :- ReadRun(ind, Data, lines);
    Ok(RawDoc(docid, s))
  }

  /** The document read lists its lines in order, and it is a tree exactly
      when some line is above level 0. Empty input gives an empty,
      sequential document. */
  lemma ReadDocShape(ind: int, lines: seq<string>, docid: string)
    requires ReadDoc(ind, lines, docid).Ok?
    ensures var d := ReadDoc(ind, lines, docid).value;
      d.Dict? && "chunks" in d.fields && d.fields["chunks"].List?
      && FlatAll(d.fields["chunks"].items) == LineChunks(Data, lines)
    ensures var d := ReadDoc(ind, lines, docid).value;
      d.fields["header"] == Dict(map["document" := Dict(map["id" := Str(docid), "type" := Str(
        if exists k :: 0 <= k < |lines| && Level(ind, lines[k]) > 0 then "tree" else "sequential")])])
    ensures lines == [] ==> ReadDoc(ind, lines, docid) == Ok(RawDoc(docid, ReadStart))
  {
    ReadRunLines(ind, Data, lines);
    MaxOfIsMax(Levels(ind, lines));
    LevelsAt(ind, lines);
  }

  class RawReader {
    /** `ind`: the indent one level stands for (0 for None). */
    const ind: int

    constructor (indent: int)
      ensures ind == indent
    {
      ind := indent;
    }

    /** `read_file`: the lines one by one, with the stack of chunk lists. */
    method ReadFile(lines: seq<string>, docid: string) returns (r: Result<Value>)
      ensures r == ReadDoc(ind, lines, docid)
    {
      var s := ReadLines(ind, Data, lines);
      if s.Err? {
        return Err(s.error);
      }
      r := Ok(RawDoc(docid, s.value));
    }
  }

  /** The reading loop, shared with the older reader: `p` names the
      payload. */
  /** The i-th line read from the state the lines before it left. */
  lemma ReadLineStep(ind: int, p: Payload, lines: seq<string>, i: nat, s: ReadState)
    requires i < |lines| && ReadValid(s)
    ensures var levs, cs := Levels(ind, lines), LineChunks(p, lines);
      var step := ReadStep(s, Level(ind, lines[i]), LineChunk(p, i + 1, lines[i]));
      (step.Err? ==> ReadFrom(s, levs[i..], cs[i..]) == Err(PyError(IndexError)))
      && (step.Ok? ==> ReadValid(step.value) && ReadFrom(s, levs[i..], cs[i..]) == ReadFrom(step.value, levs[i + 1..], cs[i + 1..]))
  {
    var levs, cs := Levels(ind, lines), LineChunks(p, lines);
    LevelsAt(ind, lines);
    LineChunksAt(p, lines);
    assert levs[i..][0] == Level(ind, lines[i]) && cs[i..][0] == LineChunk(p, i + 1, lines[i]);
    assert levs[i..][1..] == levs[i + 1..] && cs[i..][1..] == cs[i + 1..];
    ReadFromCons(s, levs[i..], cs[i..]);
  }

  /** The body of the reading loop on one line: pop or push the stack as
      the level says, then append the chunk to the top list. */
  method Advance(s: ReadState, lev: int, chunk: Value) returns (r: Result<ReadState>)
    requires ReadValid(s)
    ensures r == ReadStep(s, lev, chunk)
  {
    var chunks, height := s.chunks, s.height;
    if lev < s.curLev {
      if height == 1 {
        return Err(PyError(IndexError));
      }
      height := height - 1;
    } else if lev > s.curLev {
      if chunks == [] {
        return Err(PyError(IndexError));
      }
      height := height + 1;
    }
    chunks := Place(chunks, height - 1, chunk);
    var maxLev := if s.maxLev > lev then s.maxLev else lev;
    r := Ok(ReadState(chunks, height, lev, maxLev, s.count + 1));
  }

  /** `read_file`'s loop: each line's level and chunk (numbered by
      `chunkid`), then one step; `st` holds the stack height, the chunk
      forest, `currlev`, `maxlev` and `chunkid`. */
  method ReadLines(ind: int, p: Payload, lines: seq<string>) returns (r: Result<ReadState>)
    ensures r == ReadRun(ind, p, lines)
  {
    var st := ReadStart;
    for i := 0 to |lines|
      invariant st.count == i && ReadValid(st)
      invariant ReadRun(ind, p, lines) == ReadFrom(st, Levels(ind, lines)[i..], LineChunks(p, lines)[i..])
    {
      ReadLineStep(ind, p, lines, i, st);
      var line := lines[i];
      var lev := Level(ind, line);
      var chunk := LineChunk(p, st.count + 1, line);
      var next := Advance(st, lev, chunk);
      if next.Err? {
        return Err(next.error);
      }
      st := next.value;
    }
    r := Ok(st);
  }
}
