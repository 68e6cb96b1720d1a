// Dumping a document as plain text: every chunk's payload, line by line,
// after `(level - 1) * indent` spaces, in pre-order. Two generations of the
// same recursive printer exist (dump/text.py, and doc/textdump.py with
// doc/dump.py); they differ in how the payload is fetched and cut into
// lines. The printed file is modelled as the sequence of lines printed.

module TextDump {
  import opened Values
  import opened LocalDoc
  import opened Lines
  import RawText

  /** `Current`: `chunk.get("data", "").splitlines()`; `Legacy`:
      `chunk["data"].split("\n")`. */
  datatype Dialect = Current | Legacy

  /** The lines of a chunk's payload. */
  function DataLines(d: Dialect, c: Value): (r: Result<seq<string>>)
    ensures r.Ok? ==> c.Dict?
    ensures d == Current ==>
      (r.Ok? <==> c.Dict? && ("data" in c.fields ==> c.fields["data"].Str?))
      && (r.Err? ==> r.error == PyError(AttributeError))
      && (r.Ok? && "data" !in c.fields ==> r.value == [])
    ensures d == Legacy ==>
      (r.Ok? <==> c.Dict? && "data" in c.fields && c.fields["data"].Str?)
      && (!c.Dict? ==> r == Err(PyError(TypeError)))
      && (c.Dict? && "data" !in c.fields ==> r == Err(PyError(KeyError)))
      && (c.Dict? && "data" in c.fields && !c.fields["data"].Str? ==> r == Err(PyError(AttributeError)))
  {
    match d
    case Current =>
      var data :- GetAttr(c, "data", Str(""));
      if data.Str? then Ok(SplitLines(data.s)) else Err(PyError(AttributeError))
    case Legacy =>
      if !c.Dict? then Err(PyError(TypeError))
      else if "data" !in c.fields then Err(PyError(KeyError))
      else if !c.fields["data"].Str? then Err(PyError(AttributeError))
      else Ok(Split(c.fields["data"].s))
  }

  /** The printed lines of a payload hold no line boundary (`Current`), or
      joined back with newlines give the payload (`Legacy`). */
  lemma PayloadLines(d: Dialect, c: Value)
    requires DataLines(d, c).Ok?
    ensures d == Current ==> forall l, k :: l in DataLines(d, c).value && 0 <= k < |l| ==> !IsLineBreak(l[k])
    ensures d == Legacy ==> |DataLines(d, c).value| >= 1 && JoinNewline(DataLines(d, c).value) == c.fields["data"].s
  {
    if d == Current {
      SplitLinesClean(if "data" in c.fields then c.fields["data"].s else "");
    } else {
      SplitJoin(c.fields["data"].s);
    }
  }

  /** `" " * (level-1)*indent`: a string repeated a non-positive number of
      times is empty. */
  function Pad(level: int, n: int): (r: string)
    ensures forall k :: 0 <= k < |r| ==> r[k] == ' '
  {
    if level <= 1 then "" else Spaces((level - 1) * n)
  }

  function Indent(pre: string, ls: seq<string>): (r: seq<string>)
  {
    seq(|ls|, k requires 0 <= k < |ls| => pre + ls[k])
  }

  /** The `print` calls for a chunk's lines; an indent of None cannot be
      multiplied, which fails at the first line printed. */
  function Print(ls: seq<string>, level: int, indent: Option<int>): (r: Result<seq<string>>)
    ensures r.Err? <==> |ls| > 0 && indent.None?
    ensures r.Err? ==> r.error == PyError(TypeError)
    ensures r.Ok? ==> |r.value| == |ls|
    ensures r.Ok? && |ls| > 0 ==> forall k :: 0 <= k < |ls| ==> r.value[k] == Pad(level, indent.value) + ls[k]
  {
    if |ls| == 0 then Ok([])
    else if indent.None? then Err(PyError(TypeError))
    else Ok(Indent(Pad(level, indent.value), ls))
  }

  /** Iterating a `chunks` value that is not a list: nothing for an empty
      string or dict; for a non-empty one the first element is a string,
      which the printer cannot read a payload from; anything else is not
      iterable. */
  function NonListKids(d: Dialect, v: Value): (r: Result<seq<string>>)
    requires !v.List?
    ensures r.Ok? <==> (v.Str? || v.Dict?) && !Truthy(v)
    ensures r.Ok? ==> r.value == []
  {
    if (v.Str? || v.Dict?) && !Truthy(v) then Ok([])
    else if (v.Str? || v.Dict?) && d == Current then Err(PyError(AttributeError))
    else Err(PyError(TypeError))
  }

  /** `_dump_chunk(chunk, out, level, indent)`: the payload's lines, then the
      children one level deeper. */
  function RenderChunk(d: Dialect, c: Value, level: int, indent: Option<int>): (r: Result<seq<string>>)
    ensures DataLines(d, c).Err? ==> r == Err(DataLines(d, c).error)
    ensures r.Ok? ==>
      DataLines(d, c).Ok? && Print(DataLines(d, c).value, level, indent).Ok?
      && Print(DataLines(d, c).value, level, indent).value <= r.value
    decreases c, 1
  {
    var ls :- DataLines(d, c);
    var own :- Print(ls, level, indent);
    if "chunks" in c.fields && c.fields["chunks"].List? then
      var below :- RenderAll(d, c.fields["chunks"].items, level + 1, indent);
      Ok(own + below)
    else if "chunks" in c.fields then
      var none :- NonListKids(d, c.fields["chunks"]);
      Ok(own)
    else Ok(own)
  }

  /** The chunks of a list, one after another; the first error stops the
      printing. */
  function RenderAll(d: Dialect, f: seq<Value>, level: int, indent: Option<int>): (r: Result<seq<string>>)
    decreases f, 0
  {
    if |f| == 0 then Ok([])
    else
      var before :- RenderAll(d, f[..|f| - 1], level, indent);
      var last :- RenderChunk(d, f[|f| - 1], level, indent);
      Ok(before + last)
  }

  /** The printing of a list succeeds exactly when every chunk of it
      prints, and then begins with the first chunk's lines. */
  lemma {:induction false} RenderAllOk(d: Dialect, f: seq<Value>, level: int, indent: Option<int>)
    ensures RenderAll(d, f, level, indent).Ok? <==> forall k :: 0 <= k < |f| ==> RenderChunk(d, f[k], level, indent).Ok?
    ensures RenderAll(d, f, level, indent).Ok? && |f| > 0 ==>
      RenderChunk(d, f[0], level, indent).value <= RenderAll(d, f, level, indent).value
    decreases |f|
  {
    if |f| > 0 {
      var init := f[..|f| - 1];
      RenderAllOk(d, init, level, indent);
      assert forall k :: 0 <= k < |init| ==> init[k] == f[k];
      if |f| == 1 {
        assert init == [];
      }
    }
  }

  // -------------------------------------------------------------------
  // Indentation

  /** `line` is `base` after some spaces. */
  predicate PaddedBy(line: string, base: string)
  {
    |base| <= |line| && line == Spaces(|line| - |base|) + base
  }

  /** Line by line, `a` is `b` after some spaces. */
  predicate Shifted(a: seq<string>, b: seq<string>)
  {
    |a| == |b| && forall k :: 0 <= k < |a| ==> PaddedBy(a[k], b[k])
  }

  lemma ShiftedAppend(a1: seq<string>, b1: seq<string>, a2: seq<string>, b2: seq<string>)
    requires Shifted(a1, b1) && Shifted(a2, b2)
    ensures Shifted(a1 + a2, b1 + b2)
  {
    forall k | 0 <= k < |a1 + a2|
      ensures PaddedBy((a1 + a2)[k], (b1 + b2)[k])
    {
      if k < |a1| {
        assert (a1 + a2)[k] == a1[k] && (b1 + b2)[k] == b1[k];
      } else {
        assert (a1 + a2)[k] == a2[k - |a1|] && (b1 + b2)[k] == b2[k - |a1|];
      }
    }
  }

  lemma SpacesAre(s: string)
    requires forall k :: 0 <= k < |s| ==> s[k] == ' '
    ensures s == Spaces(|s|)
  {
  }

  /** The lines printed for a chunk's payload are the unindented ones after
      some spaces. */
  lemma PrintShifted(ls: seq<string>, level: int, n: int)
    ensures Print(ls, level, Some(n)).Ok? && Print(ls, level, Some(0)).Ok?
    ensures Shifted(Print(ls, level, Some(n)).value, Print(ls, level, Some(0)).value)
  {
    var a := Print(ls, level, Some(n));
    var b := Print(ls, level, Some(0));
    if |ls| > 0 {
      var pad := Pad(level, n);
      SpacesAre(pad);
      assert Pad(level, 0) == "";
      forall k | 0 <= k < |ls|
        ensures PaddedBy(a.value[k], b.value[k])
      {
        assert b.value[k] == ls[k];
        assert a.value[k] == pad + ls[k];
      }
    }
  }

  /** Indentation changes nothing but the leading spaces of the printed
      lines: the same lines, errors included, each after some spaces. */
  lemma {:induction false} ChunkIndentOnly(d: Dialect, c: Value, level: int, n: int)
    ensures var a := RenderChunk(d, c, level, Some(n)); var b := RenderChunk(d, c, level, Some(0));
      a.Ok? == b.Ok? && (a.Err? ==> a == b) && (a.Ok? ==> Shifted(a.value, b.value))
    decreases c, 1
  {
    var a := RenderChunk(d, c, level, Some(n));
    var b := RenderChunk(d, c, level, Some(0));
    var ls := DataLines(d, c);
    if ls.Ok? {
      PrintShifted(ls.value, level, n);
      if "chunks" in c.fields && c.fields["chunks"].List? {
        ForestIndentOnly(d, c.fields["chunks"].items, level + 1, n);
        var below := RenderAll(d, c.fields["chunks"].items, level + 1, Some(n));
        if below.Ok? {
          ShiftedAppend(Print(ls.value, level, Some(n)).value, Print(ls.value, level, Some(0)).value,
                        below.value, RenderAll(d, c.fields["chunks"].items, level + 1, Some(0)).value);
        }
      }
    }
  }

  lemma {:induction false} ForestIndentOnly(d: Dialect, f: seq<Value>, level: int, n: int)
    ensures var a := RenderAll(d, f, level, Some(n)); var b := RenderAll(d, f, level, Some(0));
      a.Ok? == b.Ok? && (a.Err? ==> a == b) && (a.Ok? ==> Shifted(a.value, b.value))
    decreases f, 0
  {
    if |f| > 0 {
      var init := f[..|f| - 1];
      ForestIndentOnly(d, init, level, n);
      ChunkIndentOnly(d, f[|f| - 1], level, n);
      var a1 := RenderAll(d, init, level, Some(n));
      var a2 := RenderChunk(d, f[|f| - 1], level, Some(n));
      if a1.Ok? && a2.Ok? {
        ShiftedAppend(a1.value, RenderAll(d, init, level, Some(0)).value,
                      a2.value, RenderChunk(d, f[|f| - 1], level, Some(0)).value);
      }
    }
  }

  /** All lines begin with `pre`. */
  predicate AllStart(pre: string, out: seq<string>)
  {
    forall k :: 0 <= k < |out| ==> pre <= out[k]
  }

  lemma PadGrows(level: int, n: int)
    requires level >= 1 && n >= 0
    ensures Pad(level, n) <= Pad(level + 1, n)
  {
    var p := Pad(level, n);
    var q := Pad(level + 1, n);
    assert |p| <= |q|;
    assert q[..|p|] == p;
  }

  /** Every line printed for a chunk at level `level` starts with that
      level's indent, and the chunks below it are indented further. */
  lemma {:induction false} ChunkIndented(d: Dialect, c: Value, level: int, n: int)
    requires level >= 1 && n >= 0 && RenderChunk(d, c, level, Some(n)).Ok?
    ensures AllStart(Pad(level, n), RenderChunk(d, c, level, Some(n)).value)
    decreases c, 1
  {
    var ls := DataLines(d, c).value;
    var own := Print(ls, level, Some(n)).value;
    var pad := Pad(level, n);
    assert AllStart(pad, own) by {
      forall k | 0 <= k < |own|
        ensures pad <= own[k]
      {
        assert own[k] == pad + ls[k];
      }
    }
    if "chunks" in c.fields && c.fields["chunks"].List? {
      var below := RenderAll(d, c.fields["chunks"].items, level + 1, Some(n)).value;
      ForestIndented(d, c.fields["chunks"].items, level + 1, n);
      PadGrows(level, n);
      assert AllStart(pad, below) by {
        forall k | 0 <= k < |below|
          ensures pad <= below[k]
        {
          assert Pad(level + 1, n) <= below[k];
        }
      }
      assert RenderChunk(d, c, level, Some(n)).value == own + below;
    }
  }

  lemma {:induction false} ForestIndented(d: Dialect, f: seq<Value>, level: int, n: int)
    requires level >= 1 && n >= 0 && RenderAll(d, f, level, Some(n)).Ok?
    ensures AllStart(Pad(level, n), RenderAll(d, f, level, Some(n)).value)
    decreases f, 0
  {
    if |f| > 0 {
      ForestIndented(d, f[..|f| - 1], level, n);
      ChunkIndented(d, f[|f| - 1], level, n);
    }
  }

  // -------------------------------------------------------------------
  // Order

  /** The payload lines of a list of chunks, one chunk after another. */
  function AllLines(d: Dialect, nodes: seq<Value>): (r: Result<seq<string>>)
  {
    if |nodes| == 0 then Ok([])
    else
      var before :- AllLines(d, nodes[..|nodes| - 1]);
      var last :- DataLines(d, nodes[|nodes| - 1]);
      Ok(before + last)
  }

  lemma AllLinesSnoc(d: Dialect, p: seq<Value>, x: Value)
    requires AllLines(d, p).Ok? && DataLines(d, x).Ok?
    ensures AllLines(d, p + [x]) == Ok(AllLines(d, p).value + DataLines(d, x).value)
  {
    assert (p + [x])[..|p|] == p;
  }

  lemma {:induction false} AllLinesAppend(d: Dialect, a: seq<Value>, b: seq<Value>)
    requires AllLines(d, a).Ok? && AllLines(d, b).Ok?
    ensures AllLines(d, a + b) == Ok(AllLines(d, a).value + AllLines(d, b).value)
    decreases |b|
  {
    if |b| == 0 {
      assert a + b == a;
      assert AllLines(d, a).value + [] == AllLines(d, a).value;
    } else {
      var init := b[..|b| - 1];
      var x := b[|b| - 1];
      AllLinesFront(d, b);
      AllLinesAppend(d, a, init);
      AllLinesSnoc(d, a + init, x);
      AppendSnoc(a, b);
      ConcatAssoc(AllLines(d, a).value, AllLines(d, init).value, DataLines(d, x).value);
    }
  }

  lemma AllLinesFront(d: Dialect, b: seq<Value>)
    requires |b| > 0 && AllLines(d, b).Ok?
    ensures AllLines(d, b[..|b| - 1]).Ok? && DataLines(d, b[|b| - 1]).Ok?
    ensures AllLines(d, b).value == AllLines(d, b[..|b| - 1]).value + DataLines(d, b[|b| - 1]).value
  {
  }

  /** With an indent of 0 the lines are printed as they are. */
  lemma PrintUnpadded(ls: seq<string>, level: int)
    ensures Print(ls, level, Some(0)) == Ok(ls)
  {
    if |ls| > 0 {
      assert Pad(level, 0) == "";
      assert forall k :: 0 <= k < |ls| ==> Indent("", ls)[k] == ls[k];
      assert Indent("", ls) == ls;
    }
  }

  /** Without indentation a chunk prints the payload lines of its subtree in
      pre-order. */
  lemma {:induction false} ChunkPreOrder(d: Dialect, c: Value, level: int)
    requires RenderChunk(d, c, level, Some(0)).Ok?
    ensures AllLines(d, FlatNode(c)) == RenderChunk(d, c, level, Some(0))
    decreases c, 1
  {
    var ls := DataLines(d, c).value;
    var top := Dict(c.fields - {"chunks"});
    assert DataLines(d, top) == DataLines(d, c);
    assert AllLines(d, [top]) == Ok(ls) by {
      assert [top][..0] == [];
      assert [] + ls == ls;
    }
    PrintUnpadded(ls, level);
    if "chunks" in c.fields && c.fields["chunks"].List? {
      var kids := c.fields["chunks"].items;
      ForestPreOrder(d, kids, level + 1);
      AllLinesAppend(d, [top], FlatAll(kids));
    }
  }

  lemma {:induction false} ForestPreOrder(d: Dialect, f: seq<Value>, level: int)
    requires RenderAll(d, f, level, Some(0)).Ok?
    ensures AllLines(d, FlatAll(f)) == RenderAll(d, f, level, Some(0))
    decreases f, 0
  {
    if |f| > 0 {
      ForestPreOrder(d, f[..|f| - 1], level);
      ChunkPreOrder(d, f[|f| - 1], level);
      AllLinesAppend(d, FlatAll(f[..|f| - 1]), FlatNode(f[|f| - 1]));
    }
  }

  /** An indent of None fails at the first chunk: its payload is always at
      least one line. */
  lemma {:induction false} LegacyWithoutIndent(f: seq<Value>, level: int)
    requires |f| > 0
    ensures RenderAll(Legacy, f, level, None).Err?
    decreases |f|
  {
    if |f| > 1 {
      LegacyWithoutIndent(f[..|f| - 1], level);
    }
  }

  // -------------------------------------------------------------------
  // The three printers

  /** dump/text.py `dump_text`: a missing or zero indent means none. */
  function DumpText(structure: seq<Value>, indent: Option<int>): (r: Result<seq<string>>)
    ensures r.Ok? <==>
      forall k :: 0 <= k < |structure| ==> RenderChunk(Current, structure[k], 1, Some(if indent.None? then 0 else indent.value)).Ok?
  {
    RenderAllOk(Current, structure, 1, Some(if indent.None? || indent == Some(0) then 0 else indent.value));
    RenderAll(Current, structure, 1, Some(if indent.None? || indent == Some(0) then 0 else indent.value))
  }

  /** Without an indent, `dump_text` prints the payload lines of the chunks
      in pre-order; with one, the same lines after leading spaces, and the
      subchunks of a top-level chunk one indent deep. */
  lemma DumpTextLines(structure: seq<Value>, indent: Option<int>)
    ensures DumpText(structure, indent).Ok? <==> DumpText(structure, None).Ok?
    ensures DumpText(structure, None).Ok? ==> DumpText(structure, None) == AllLines(Current, FlatAll(structure))
    ensures DumpText(structure, indent).Ok? ==> Shifted(DumpText(structure, indent).value, DumpText(structure, None).value)
    ensures indent.Some? && indent.value > 0 && DumpText(structure, indent).Ok? ==>
      forall k :: 0 <= k < |structure| && structure[k].Dict? && "chunks" in structure[k].fields && structure[k].fields["chunks"].List? ==>
        SubchunksIndented(structure[k].fields["chunks"].items, indent.value)
  {
    var n := if indent.None? || indent == Some(0) then 0 else indent.value;
    ForestIndentOnly(Current, structure, 1, n);
    if DumpText(structure, None).Ok? {
      ForestPreOrder(Current, structure, 1);
    }
    if indent.Some? && indent.value > 0 && DumpText(structure, indent).Ok? {
      forall k | 0 <= k < |structure| && structure[k].Dict? && "chunks" in structure[k].fields && structure[k].fields["chunks"].List?
        ensures SubchunksIndented(structure[k].fields["chunks"].items, indent.value)
      {
        assert RenderChunk(Current, structure[k], 1, Some(n)).Ok?;
        ForestIndented(Current, structure[k].fields["chunks"].items, 2, n);
      }
    }
  }

  /** The subchunks of a top-level chunk print, every line after `n`
      spaces. */
  predicate SubchunksIndented(kids: seq<Value>, n: int)
  {
    RenderAll(Current, kids, 2, Some(n)).Ok? && AllStart(Pad(2, n), RenderAll(Current, kids, 2, Some(n)).value)
  }

  /** doc/textdump.py `dump_text`: the indent is used as given. */
  function DocDumpText(structure: seq<Value>, indent: Option<int>): (r: Result<seq<string>>)
    ensures r.Ok? <==> forall k :: 0 <= k < |structure| ==> RenderChunk(Legacy, structure[k], 1, indent).Ok?
    ensures indent.None? && |structure| > 0 ==> r.Err?
  {
    RenderAllOk(Legacy, structure, 1, indent);
    if indent.None? && |structure| > 0 then
      LegacyWithoutIndent(structure, 1);
      RenderAll(Legacy, structure, 1, indent)
    else RenderAll(Legacy, structure, 1, indent)
  }

  /** doc/dump.py `dump_raw`: the chunks of the document's dict. */
  function DumpRaw(doc: Value, indent: Option<int>): (r: Result<seq<string>>)
    ensures !doc.Dict? ==> r == Err(PyError(AttributeError))
    ensures doc.Dict? && "chunks" !in doc.fields ==> r == Ok([])
  {
    var cs :- GetAttr(doc, "chunks", List([]));
    if cs.List? then RenderAll(Legacy, cs.items, 1, indent)
    else NonListKids(Legacy, cs)
  }

  // -------------------------------------------------------------------
  // Reading back what the raw-text reader read

  /** A payload without newlines is one printed line. */
  lemma SplitSingle(s: string)
    requires forall j :: 0 <= j < |s| ==> s[j] != '\n'
    ensures Split(s) == [s]
  {
    FirstNewlineIs(s, |s|);
  }

  /** A leaf whose payload has no newline prints as one padded line. */
  lemma RenderLeaf(c: Value, s: string, level: int, n: int)
    requires Leaf(c) && "data" in c.fields && c.fields["data"] == Str(s)
    requires forall j :: 0 <= j < |s| ==> s[j] != '\n'
    ensures RenderChunk(Legacy, c, level, Some(n)) == Ok([Pad(level, n) + s])
  {
    SplitSingle(s);
    var pad := Pad(level, n);
    assert DataLines(Legacy, c) == Ok([s]);
    assert Indent(pad, [s])[0] == pad + s;
    assert Indent(pad, [s]) == [pad + s];
    assert Print([s], level, Some(n)) == Ok([pad + s]);
  }

  /** Leaf chunks with one-line payloads print one line each. */
  lemma {:induction false} RenderLeaves(cs: seq<Value>, ss: seq<string>, level: int, n: int)
    requires |cs| == |ss|
    requires forall k :: 0 <= k < |cs| ==> Leaf(cs[k]) && "data" in cs[k].fields && cs[k].fields["data"] == Str(ss[k])
    requires forall k, j :: 0 <= k < |ss| && 0 <= j < |ss[k]| ==> ss[k][j] != '\n'
    ensures RenderAll(Legacy, cs, level, Some(n)) == Ok(Indent(Pad(level, n), ss))
    decreases |cs|
  {
    if |cs| > 0 {
      var m := |cs| - 1;
      RenderLeaves(cs[..m], ss[..m], level, n);
      var pad := Pad(level, n);
      RenderLeaf(cs[m], ss[m], level, n);
      assert RenderAll(Legacy, cs, level, Some(n)) == Ok(Indent(pad, ss[..m]) + [pad + ss[m]]);
      assert Indent(pad, ss) == Indent(pad, ss[..m]) + [pad + ss[m]];
    } else {
      assert Indent(Pad(level, n), ss) == [];
    }
  }

  /** A line that holds a newline at most at its end strips to a line
      without one. */
  lemma StripOneLine(s: string)
    requires forall j :: 0 <= j < |s| - 1 ==> s[j] != '\n'
    ensures forall j :: 0 <= j < |RawText.Strip(s)| ==> RawText.Strip(s)[j] != '\n'
  {
    RawText.StripEnds(s);
    var r := RawText.Strip(s);
    var i := RawText.Leading(s);
    forall j | 0 <= j < |r|
      ensures r[j] != '\n'
    {
      assert r[j] == s[i + j];
    }
  }

  function Stripped(lines: seq<string>): (r: seq<string>)
  {
    seq(|lines|, k requires 0 <= k < |lines| => RawText.Strip(lines[k]))
  }

  /** Printing, with `dump_raw`, the document the raw-text reader read from a
      file without indentation gives back the file's lines, stripped. */
  lemma DumpRawOfFlatRead(lines: seq<string>, docid: string, n: int)
    requires forall k, j :: 0 <= k < |lines| && 0 <= j < |lines[k]| - 1 ==> lines[k][j] != '\n'
    ensures RawText.ReadDoc(0, lines, docid).Ok?
    ensures DumpRaw(RawText.ReadDoc(0, lines, docid).value, Some(n)) == Ok(Stripped(lines))
  {
    RawText.FlatFile(RawText.Data, lines);
    RawText.LineChunksAt(RawText.Data, lines);
    var cs := RawText.LineChunks(RawText.Data, lines);
    var ss := Stripped(lines);
    forall k | 0 <= k < |lines|
      ensures forall j :: 0 <= j < |ss[k]| ==> ss[k][j] != '\n'
    {
      StripOneLine(lines[k]);
    }
    RenderLeaves(cs, ss, 1, n);
    assert forall k :: 0 <= k < |ss| ==> Indent("", ss)[k] == ss[k];
    assert Indent("", ss) == ss;
  }

  /** With an indent of None, `dump_raw` fails on any document with a
      chunk. */
  lemma DumpRawWithoutIndent(doc: Value)
    requires doc.Dict? && "chunks" in doc.fields && doc.fields["chunks"].List? && |doc.fields["chunks"].items| > 0
    ensures DumpRaw(doc, None).Err?
  {
    LegacyWithoutIndent(doc.fields["chunks"].items, 1);
  }
}
