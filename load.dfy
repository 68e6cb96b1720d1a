// The older raw-text loader: the same line-by-line reading as the raw-text
// reader, with the payload under `text` and no header.

module RawLoad {
  import opened Values
  import opened LocalDoc
  import opened RawText

  /** The outcome of a run depends only on the levels: two runs over the
      same levels, from states alike in stack height, current level and
      whether any chunk was read, both fail or both succeed, whatever the
      chunks hold. */
  lemma {:induction false} SameOutcome(s1: ReadState, s2: ReadState, levs: seq<int>, cs1: seq<Value>, cs2: seq<Value>)
    requires ReadValid(s1) && ReadValid(s2)
    requires s1.height == s2.height && s1.curLev == s2.curLev && (s1.chunks == []) == (s2.chunks == [])
    requires |levs| == |cs1| == |cs2| && Leaves(cs1) && Leaves(cs2)
    ensures ReadFrom(s1, levs, cs1).Ok? <==> ReadFrom(s2, levs, cs2).Ok?
    decreases |levs|
  {
    if |levs| > 0 {
      ReadFromCons(s1, levs, cs1);
      ReadFromCons(s2, levs, cs2);
      var r1 := ReadStep(s1, levs[0], cs1[0]);
      var r2 := ReadStep(s2, levs[0], cs2[0]);
      if r1.Ok? {
        SameOutcome(r1.value, r2.value, levs[1..], cs1[1..], cs2[1..]);
      }
    }
  }

  /** `read_file` of the older reader over the lines of the file. */
  function LoadDoc(ind: int, lines: seq<string>): (r: Result<Value>)
    ensures r.Err? ==> r.error == PyError(IndexError)
  {
    var s :- ReadRun(ind, Text, lines);
    Ok(Dict(map["chunks" := List(s.chunks)]))
  }

  /** The older reader fails on exactly the files the raw-text reader fails
      on. */
  lemma LoadAgrees(ind: int, lines: seq<string>, docid: string)
    ensures LoadDoc(ind, lines).Ok? <==> ReadDoc(ind, lines, docid).Ok?
  {
    SameOutcome(ReadStart, ReadStart, Levels(ind, lines), LineChunks(Text, lines), LineChunks(Data, lines));
  }

  /** The document loaded holds only the chunk forest, which lists the lines
      in order, each under `text`; empty input gives an empty forest. */
  lemma LoadDocShape(ind: int, lines: seq<string>)
    requires LoadDoc(ind, lines).Ok?
    ensures var d := LoadDoc(ind, lines).value;
      d.Dict? && d.fields.Keys == {"chunks"} && d.fields["chunks"].List?
      && FlatAll(d.fields["chunks"].items) == LineChunks(Text, lines)
    ensures lines == [] ==> LoadDoc(ind, lines) == Ok(Dict(map["chunks" := List([])]))
  {
    ReadRunLines(ind, Text, lines);
  }

  /** Without an indent every line is a top-level chunk. */
  lemma LoadFlat(lines: seq<string>)
    ensures LoadDoc(0, lines) == Ok(Dict(map["chunks" := List(LineChunks(Text, lines))]))
  {
    FlatFile(Text, lines);
  }

  class RawReader {
    /** `ind`: the indent one level stands for (0 for None). */
    const ind: int

    constructor (indent: int)
      ensures ind == indent
    {
      ind := indent;
    }

    /** `read_file`: the lines one by one, with the stack of chunk lists. */
    method ReadFile(lines: seq<string>) returns (r: Result<Value>)
      ensures r == LoadDoc(ind, lines)
    {
      var s := ReadLines(ind, Text, lines);
      if s.Err? {
        return Err(s.error);
      }
      r := Ok(Dict(map["chunks" := List(s.value.chunks)]));
    }
  }
}
