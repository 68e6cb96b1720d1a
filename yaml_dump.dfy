// Serialising a document to YAML (dump/yaml.py): a representer turns each
// list of chunks into a list of element mappings (id, payload as a block
// literal, subchunks left wrapped for the next call, filtered context), and
// the YAML library calls it again for every wrapped list it meets.

module YamlDump {
  import opened Values
  import opened Defs
  import opened Emit
  import JsonDump

  /** `"id" in chunk`: the id entry, if any. */
  function IdEntry(fs: map<string, Value>): seq<(string, Node)>
  {
    if "id" in fs then [("id", Plain(fs["id"]))] else []
  }

  /** `payload = chunk.get("data")`, a string made a `TextNode`, kept only
      when truthy. */
  function DataEntry(fs: map<string, Value>): seq<(string, Node)>
  {
    var payload := Get(fs, "data", Null);
    if payload.Str? then (if |payload.s| > 0 then [("data", Literal(payload.s))] else [])
    else if Truthy(payload) then [("data", Plain(payload))]
    else []
  }

  /** The subchunks, left wrapped for the representer's next call. */
  function ChunksEntry(fs: map<string, Value>): seq<(string, Node)>
  {
    if "chunks" in fs then [("chunks", Wrapped(fs["chunks"]))] else []
  }

  /** Each entry is present exactly when the chunk has the field (a truthy
      one for the payload), is named after it and parses back to its value.
      A string payload is written as a block literal and the subchunks stay
      wrapped. */
  lemma EntryFields(fs: map<string, Value>)
    ensures var r := IdEntry(fs);
      |r| <= 1 && (|r| == 1 <==> "id" in fs) && (|r| == 1 ==> r[0].0 == "id" && ToValue(r[0].1) == fs["id"])
    ensures var r := DataEntry(fs);
      |r| <= 1 && (|r| == 1 <==> "data" in fs && Truthy(fs["data"]))
      && (|r| == 1 ==> r[0].0 == "data" && ToValue(r[0].1) == fs["data"])
      && (|r| == 1 && fs["data"].Str? ==> r[0].1.Literal?)
    ensures var r := ChunksEntry(fs);
      |r| <= 1 && (|r| == 1 <==> "chunks" in fs)
      && (|r| == 1 ==> r[0].0 == "chunks" && r[0].1.Wrapped? && ToValue(r[0].1) == fs["chunks"])
  {
  }

  /** How a chunk that is not a dict fails: at `"id" in chunk` (not a
      container), at `chunk["id"]` (a string or list that contains "id") or
      at `chunk.get` (any other string or list). */
  function NotAChunk(c: Value): (e: Error)
    requires !c.Dict?
    ensures e == PyError(TypeError) || e == PyError(AttributeError)
  {
    match c
    case Str(s) => PyError(if Contains(s, "id") then TypeError else AttributeError)
    case List(xs) => PyError(if Str("id") in xs then TypeError else AttributeError)
    case _ => PyError(TypeError)
  }

  /** One iteration of the representer's loop: the element for one chunk,
      its entries in the order id, payload, subchunks, context. */
  function Element(f: ContextFilter, c: Value): (r: Result<Node>)
    ensures r.Ok? <==> c.Dict? && ContextEntry(f, c.fields).Ok?
    ensures r.Ok? ==> r.value == Mapping(IdEntry(c.fields) + DataEntry(c.fields) + ChunksEntry(c.fields) + ContextEntry(f, c.fields).value)
    ensures !c.Dict? ==> r == Err(NotAChunk(c))
  {
    if !c.Dict? then Err(NotAChunk(c))
    else
      var ctx :- ContextEntry(f, c.fields);
      Ok(Mapping(IdEntry(c.fields) + DataEntry(c.fields) + ChunksEntry(c.fields) + ctx))
  }

  /** The elements of a list of chunks, in order; the first failure stops
      the list. */
  function Elements(f: ContextFilter, cs: seq<Value>): (r: Result<seq<Node>>)
    ensures r.Ok? ==> |r.value| == |cs|
  {
    if |cs| == 0 then Ok([])
    else
      var before :- Elements(f, cs[..|cs| - 1]);
      var last :- Element(f, cs[|cs| - 1]);
      Ok(before + [last])
  }

  /** Iterating a wrapped value that is not a list: an empty string or dict
      gives an empty list; the elements of a non-empty one are strings (one
      character, or a key); anything else is not iterable. */
  function NonListElements(v: Value): (r: Result<Node>)
    requires !v.List?
    ensures r.Ok? <==> (v.Str? || v.Dict?) && !Truthy(v)
    ensures r.Ok? ==> r.value == Items([])
  {
    if (v.Str? || v.Dict?) && !Truthy(v) then Ok(Items([]))
    else if v.Str? then Err(PyError(AttributeError))
    else if v.Dict? then Err(PyError(if forall k :: k in v.fields ==> Contains(k, "id") then TypeError else AttributeError))
    else Err(PyError(TypeError))
  }

  /** What the representer gives for a wrapped value. */
  function Represent(f: ContextFilter, data: Value): (r: Result<Node>)
    ensures r.Ok? ==> r.value.Items?
  {
    if data.List? then
      var es :- Elements(f, data.items);
      Ok(Items(es))
    else NonListElements(data)
  }

  /** Once a prefix of the list fails, the whole list fails the same way. */
  lemma {:induction false} ElementsStop(f: ContextFilter, cs: seq<Value>, i: nat)
    requires i <= |cs| && Elements(f, cs[..i]).Err?
    ensures Elements(f, cs) == Elements(f, cs[..i])
    decreases |cs| - i
  {
    if i < |cs| {
      assert cs[..i + 1][..i] == cs[..i];
      ElementsStop(f, cs, i + 1);
    } else {
      assert cs[..i] == cs;
    }
  }

  /** One chunk more: its element is added to the list, or its failure
      ends it. */
  lemma ElementsSnoc(f: ContextFilter, cs: seq<Value>, i: int)
    requires 0 <= i < |cs| && Elements(f, cs[..i]).Ok?
    ensures Element(f, cs[i]).Err? ==> Elements(f, cs[..i + 1]) == Err(Element(f, cs[i]).error)
    ensures Element(f, cs[i]).Ok? ==> Elements(f, cs[..i + 1]) == Ok(Elements(f, cs[..i]).value + [Element(f, cs[i]).value])
  {
    assert cs[..i + 1][..i] == cs[..i];
  }

  class ChunkWrapperRepresenter {
    const ctxPos: bool
    const ctx: set<string>

    constructor (contextFields: Option<seq<string>>)
      ensures ContextFilter(ctx, ctxPos) == MakeFilter(contextFields)
    {
      var f := MakeFilter(contextFields);
      ctxPos := f.keep;
      ctx := f.fields;
    }

    /** `__call__`: the element list, built one chunk at a time. */
    method Call(data: Value) returns (r: Result<Node>)
      ensures r == Represent(ContextFilter(ctx, ctxPos), data)
    {
      var f := ContextFilter(ctx, ctxPos);
      if !data.List? {
        return NonListElements(data);
      }
      var cs := data.items;
      var chunklist: seq<Node> := [];
      for i := 0 to |cs|
        invariant Elements(f, cs[..i]) == Ok(chunklist)
      {
        var elem := Element(f, cs[i]);
        ElementsSnoc(f, cs, i);
        if elem.Err? {
          ElementsStop(f, cs, i + 1);
          return Err(elem.error);
        }
        chunklist := chunklist + [elem.value];
      }
      assert cs[..|cs|] == cs;
      r := Ok(Items(chunklist));
    }
  }

  /** `dump_yaml`'s data: the format tag, the document's metadata and its
      chunks, wrapped for the representer. */
  function DumpData(header: Value, structure: seq<Value>): (r: Node)
    ensures r.Mapping? && |r.entries| == 3
    ensures ToValue(r) == Dict(map["format" := Str(FMT_SRCDOCUMENT), "header" := header, "chunks" := List(structure)])
  {
    var e0 := ("format", Plain(Str(FMT_SRCDOCUMENT)));
    var e1 := ("header", Plain(header));
    var e2 := ("chunks", Wrapped(List(structure)));
    FieldsOfSnoc([], e0.0, e0.1);
    FieldsOfSnoc([e0], e1.0, e1.1);
    FieldsOfSnoc([e0, e1], e2.0, e2.1);
    assert [] + [e0] == [e0] && [e0] + [e1] == [e0, e1] && [e0, e1] + [e2] == [e0, e1, e2];
    Mapping([("format", Plain(Str(FMT_SRCDOCUMENT))), ("header", Plain(header)), ("chunks", Wrapped(List(structure)))])
  }

  /** The document is written as its format tag, its metadata and its
      chunks, in that order; the chunks give one element each, in order,
      carrying the chunk's id when it has one. */
  lemma DumpShape(header: Value, structure: seq<Value>, f: ContextFilter)
    ensures KeysOf(DumpData(header, structure).entries) == ["format", "header", "chunks"]
    ensures DumpData(header, structure).entries[2].1 == Wrapped(List(structure))
    ensures var r := Represent(f, List(structure));
      r.Ok? ==>
        |r.value.elems| == |structure|
        && forall k :: 0 <= k < |structure| ==>
             Element(f, structure[k]).Ok? && r.value.elems[k] == Element(f, structure[k]).value
    ensures var r := Represent(f, List(structure));
      r.Ok? ==>
        forall k :: 0 <= k < |structure| ==>
          structure[k].Dict? && r.value.elems[k].Mapping?
          && ("id" in structure[k].fields <==>
                |r.value.elems[k].entries| > 0 && r.value.elems[k].entries[0].0 == "id")
          && ("id" in structure[k].fields ==>
                r.value.elems[k].entries[0] == ("id", Plain(structure[k].fields["id"])))
  {
    ElementsAt(f, structure);
  }

  lemma {:induction false} ElementsAt(f: ContextFilter, cs: seq<Value>)
    ensures Elements(f, cs).Ok? <==> forall k :: 0 <= k < |cs| ==> Element(f, cs[k]).Ok?
    ensures Elements(f, cs).Ok? ==> forall k :: 0 <= k < |cs| ==> Elements(f, cs).value[k] == Element(f, cs[k]).value
    decreases |cs|
  {
    if |cs| > 0 {
      var init, last := cs[..|cs| - 1], cs[|cs| - 1];
      ElementsAt(f, init);
      if Elements(f, cs).Ok? {
        var es := Elements(f, cs).value;
        var ei := Elements(f, init).value;
        var el := Element(f, last);
        assert Elements(f, init).Ok? && el.Ok? && es == ei + [el.value];
        forall k | 0 <= k < |cs|
          ensures Element(f, cs[k]).Ok? && es[k] == Element(f, cs[k]).value
        {
          if k < |init| {
            assert init[k] == cs[k] && es[k] == ei[k];
          } else {
            assert cs[k] == last && es[k] == el.value;
          }
        }
      } else if Elements(f, init).Err? {
        var k :| 0 <= k < |init| && Element(f, init[k]).Err?;
        assert init[k] == cs[k];
      }
    }
  }

  // -------------------------------------------------------------------
  // Context filtering

  /** With an empty list of context fields a chunk is written as if it had
      no context at all. */
  lemma NoContextFields(c: Value, f: ContextFilter)
    requires c.Dict?
    ensures Element(MakeFilter(Some([])), c) == Element(f, Dict(c.fields - {"context"}))
  {
    var fs := c.fields;
    var gs := fs - {"context"};
    FilterModes(if "context" in fs && fs["context"].Dict? then fs["context"].fields else map[]);
    assert IdEntry(gs) == IdEntry(fs);
    assert DataEntry(gs) == DataEntry(fs);
    assert ChunksEntry(gs) == ChunksEntry(fs);
  }

  /** With no list of context fields, no structure field is ever written. */
  lemma NoStructureFields(c: Value)
    requires Element(MakeFilter(None), c).Ok?
    ensures var es := Element(MakeFilter(None), c).value.entries;
      forall k :: 0 <= k < |es| && es[k].0 == "context" ==>
        es[k].1.Plain? && es[k].1.v.Dict? && forall x :: x in es[k].1.v.fields ==> x !in CTX_FIELDS
  {
    var fs := c.fields;
    var es := Element(MakeFilter(None), c).value.entries;
    forall k | 0 <= k < |es| && es[k].0 == "context"
      ensures es[k].1.Plain? && es[k].1.v.Dict? && forall x :: x in es[k].1.v.fields ==> x !in CTX_FIELDS
    {
      var pre := IdEntry(fs) + DataEntry(fs) + ChunksEntry(fs);
      assert forall j :: 0 <= j < |pre| ==> pre[j].0 != "context";
      assert k >= |pre|;
      FilterModes(fs["context"].fields);
    }
  }

  // -------------------------------------------------------------------
  // Reading a dump back

  /** A chunk whose own element, parsed back, gives its fields: every
      field it has is one the representer writes, the payload is truthy, and
      the context is non-empty and free of structure fields. */
  predicate PlainlyHere(c: Value)
  {
    c.Dict?
    && (forall k :: k in c.fields ==> k == "id" || k == "data" || k == "chunks" || k == "context")
    && ("data" in c.fields ==> Truthy(c.fields["data"]))
    && ("context" in c.fields ==>
          c.fields["context"].Dict? && |c.fields["context"].fields| > 0
          && forall k :: k in c.fields["context"].fields ==> k !in CTX_FIELDS)
  }

  /** The same at every depth: the subchunks are a list of such chunks. */
  predicate Plainly(c: Value)
    decreases c, 1
  {
    PlainlyHere(c)
    && ("chunks" in c.fields ==> c.fields["chunks"].List? && AllPlainly(c.fields["chunks"].items))
  }

  predicate AllPlainly(cs: seq<Value>)
    decreases cs, 0
  {
    forall k :: 0 <= k < |cs| ==> Plainly(cs[k])
  }

  /** The fields of `fs` among `keys`. */
  function Restrict(fs: map<string, Value>, keys: set<string>): (m: map<string, Value>)
  {
    map k | k in fs && k in keys :: fs[k]
  }

  /** One more entry adds its key's field, or nothing when the chunk lacks
      that field. */
  lemma RestrictStep(es: seq<(string, Node)>, e: seq<(string, Node)>, fs: map<string, Value>, keys: set<string>, key: string)
    requires FieldsOf(es) == Restrict(fs, keys)
    requires (key !in fs && e == []) || (key in fs && |e| == 1 && e[0].0 == key && ToValue(e[0].1) == fs[key])
    ensures FieldsOf(es + e) == Restrict(fs, keys + {key})
  {
    if e == [] {
      assert es + e == es;
    } else {
      assert e == [(key, e[0].1)];
      FieldsOfSnoc(es, key, e[0].1);
    }
  }

  /** Restricting to every key but one drops just that one. */
  lemma RestrictAllBut(fs: map<string, Value>, keys: set<string>, other: string)
    requires other !in keys && forall k :: k in fs ==> k in keys || k == other
    ensures Restrict(fs, keys) == fs - {other}
  {
    var r := Restrict(fs, keys);
    assert r.Keys == fs.Keys - {other};
    assert forall k :: k in r ==> r[k] == fs[k];
  }

  lemma IdFields(fs: map<string, Value>)
    ensures FieldsOf(IdEntry(fs)) == Restrict(fs, {"id"})
  {
    assert FieldsOf([]) == Restrict(fs, {});
    assert IdEntry(fs) == [] + IdEntry(fs);
    RestrictStep([], IdEntry(fs), fs, {}, "id");
  }

  lemma DataFields(fs: map<string, Value>)
    requires "data" in fs ==> Truthy(fs["data"])
    ensures FieldsOf(IdEntry(fs) + DataEntry(fs)) == Restrict(fs, {"id", "data"})
  {
    IdFields(fs);
    RestrictStep(IdEntry(fs), DataEntry(fs), fs, {"id"}, "data");
    assert {"id"} + {"data"} == {"id", "data"};
  }

  /** The id, payload and subchunk entries of such a chunk give its fields
      but the context. */
  lemma HeadFields(fs: map<string, Value>)
    requires PlainlyHere(Dict(fs))
    ensures FieldsOf(IdEntry(fs) + DataEntry(fs) + ChunksEntry(fs)) == fs - {"context"}
  {
    DataFields(fs);
    RestrictStep(IdEntry(fs) + DataEntry(fs), ChunksEntry(fs), fs, {"id", "data"}, "chunks");
    assert {"id", "data"} + {"chunks"} == {"id", "data", "chunks"};
    RestrictAllBut(fs, {"id", "data", "chunks"}, "context");
  }

  /** One level deep: parsed back, the element written for such a chunk
      gives the chunk's fields, its subchunks still the wrapped list. */
  lemma ElementFields(c: Value)
    requires PlainlyHere(c)
    ensures Element(MakeFilter(None), c).Ok? && ToValue(Element(MakeFilter(None), c).value) == c
    ensures FieldsOf(Element(MakeFilter(None), c).value.entries) == c.fields
  {
    var f := MakeFilter(None);
    var fs := c.fields;
    var head := IdEntry(fs) + DataEntry(fs) + ChunksEntry(fs);
    HeadFields(fs);
    if "context" in fs {
      assert Filtered(f, fs["context"].fields) == fs["context"].fields;
      FieldsOfSnoc(head, "context", Plain(fs["context"]));
      assert (fs - {"context"})["context" := fs["context"]] == fs;
    } else {
      assert head + [] == head;
      assert fs - {"context"} == fs;
    }
  }

  // -------------------------------------------------------------------
  // The whole output: the YAML library calls the representer again for
  // every wrapped list it meets, depth first, in element order.

  /** What the YAML written for a wrapped value reads back as: the
      representer's element list, each element with its own wrapped
      subchunks written in turn. Every element of a list is built before
      the first one's subchunks are written. */
  function Written(f: ContextFilter, v: Value): (r: Result<Value>)
    ensures Represent(f, v).Err? ==> r == Err(Represent(f, v).error)
    ensures r.Ok? ==> r.value.List? && (v.List? ==> |r.value.items| == |v.items|)
    decreases v, 1
  {
    var n :- Represent(f, v);
    if v.List? then
      var ks :- ExpandedAll(f, v.items);
      Ok(List(ks))
    else Ok(List([]))
  }

  /** The elements of a list of chunks, each with its subchunks written. */
  function ExpandedAll(f: ContextFilter, cs: seq<Value>): (r: Result<seq<Value>>)
    ensures r.Ok? ==> |r.value| == |cs|
    decreases cs, 0
  {
    if |cs| == 0 then Ok([])
    else
      var before :- ExpandedAll(f, cs[..|cs| - 1]);
      var last :- Expanded(f, cs[|cs| - 1]);
      Ok(before + [last])
  }

  /** One chunk's element read back, with its wrapped subchunks written by
      the representer in turn. */
  function Expanded(f: ContextFilter, c: Value): (r: Result<Value>)
    ensures Element(f, c).Err? ==> r == Err(Element(f, c).error)
    ensures r.Ok? ==> r.value.Dict?
    decreases c, 2
  {
    var e :- Element(f, c);
    var fs := FieldsOf(e.entries);
    if "chunks" in c.fields then
      var kids :- Written(f, c.fields["chunks"]);
      Ok(Dict(fs["chunks" := kids]))
    else Ok(Dict(fs))
  }

  /** The list is written element by element. */
  lemma ExpandedAllAt(f: ContextFilter, cs: seq<Value>)
    ensures ExpandedAll(f, cs).Ok? <==> forall k :: 0 <= k < |cs| ==> Expanded(f, cs[k]).Ok?
    ensures ExpandedAll(f, cs).Ok? ==> forall k :: 0 <= k < |cs| ==> Expanded(f, cs[k]) == Ok(ExpandedAll(f, cs).value[k])
  {
    if forall k :: 0 <= k < |cs| ==> Expanded(f, cs[k]).Ok? {
      ExpandedAllOk(f, cs);
    }
    if ExpandedAll(f, cs).Ok? {
      forall k | 0 <= k < |cs|
        ensures Expanded(f, cs[k]) == Ok(ExpandedAll(f, cs).value[k])
      {
        ExpandedAllOne(f, cs, k);
      }
    }
  }

  /** A list whose every chunk is written is written. */
  lemma {:induction false} ExpandedAllOk(f: ContextFilter, cs: seq<Value>)
    requires forall k :: 0 <= k < |cs| ==> Expanded(f, cs[k]).Ok?
    ensures ExpandedAll(f, cs).Ok?
    decreases |cs|
  {
    if |cs| > 0 {
      var init := cs[..|cs| - 1];
      assert forall k :: 0 <= k < |init| ==> init[k] == cs[k];
      ExpandedAllOk(f, init);
      ExpandedAllSnoc(f, cs);
    }
  }

  /** One chunk more: the list is written when the list before it is and
      the chunk is. */
  lemma ExpandedAllSnoc(f: ContextFilter, cs: seq<Value>)
    requires |cs| > 0
    ensures ExpandedAll(f, cs).Ok? <==> ExpandedAll(f, cs[..|cs| - 1]).Ok? && Expanded(f, cs[|cs| - 1]).Ok?
  {
  }

  /** The k-th chunk written is the k-th chunk's expansion. */
  lemma {:induction false} ExpandedAllOne(f: ContextFilter, cs: seq<Value>, k: int)
    requires ExpandedAll(f, cs).Ok? && 0 <= k < |cs|
    ensures Expanded(f, cs[k]) == Ok(ExpandedAll(f, cs).value[k])
    decreases |cs|
  {
    var init := cs[..|cs| - 1];
    assert ExpandedAll(f, init).Ok?;
    var ei := ExpandedAll(f, init).value;
    assert ExpandedAll(f, cs).value == ei + [Expanded(f, cs[|cs| - 1]).value];
    if k < |init| {
      assert init[k] == cs[k];
      ExpandedAllOne(f, init, k);
    }
  }

  /** Parsed back, the YAML written for such a chunk is the chunk, at every
      depth. */
  lemma {:induction false} ElementRoundTrip(c: Value)
    requires Plainly(c)
    ensures Element(MakeFilter(None), c).Ok? && Expanded(MakeFilter(None), c) == Ok(c)
    decreases c, 1
  {
    ElementFields(c);
    if "chunks" in c.fields {
      ListRoundTrip(c.fields["chunks"].items);
      assert c.fields["chunks"] == List(c.fields["chunks"].items);
      assert c.fields["chunks" := c.fields["chunks"]] == c.fields;
    }
  }

  /** Parsed back, the YAML written for a list of such chunks is the list. */
  lemma {:induction false} ListRoundTrip(cs: seq<Value>)
    requires AllPlainly(cs)
    ensures Written(MakeFilter(None), List(cs)) == Ok(List(cs))
    decreases cs, 0
  {
    var f := MakeFilter(None);
    forall k | 0 <= k < |cs|
      ensures Element(f, cs[k]).Ok? && Expanded(f, cs[k]) == Ok(cs[k])
    {
      ElementRoundTrip(cs[k]);
    }
    ElementsAt(f, cs);
    ExpandedAllAt(f, cs);
    var ks := ExpandedAll(f, cs).value;
    assert ks == cs;
  }

  /** A falsy payload is dropped at every depth: a subchunk with an empty
      payload is read back without `data`, where the JSON dump keeps it. */
  lemma SubchunkEmptyPayload()
    ensures var sub := Dict(map["id" := Str("2"), "data" := Str("")]);
      var c := Dict(map["id" := Str("1"), "data" := Str("x"), "chunks" := List([sub])]);
      Element(MakeFilter(None), c).Ok?
      && Expanded(MakeFilter(None), c) == Ok(Dict(c.fields["chunks" := List([Dict(map["id" := Str("2")])])]))
      && JsonDump.SerializeChunk(c, MakeFilter(None)).Ok?
      && ToValue(JsonDump.SerializeChunk(c, MakeFilter(None)).value) == c
  {
    var sub := Dict(map["id" := Str("2"), "data" := Str("")]);
    var c := Dict(map["id" := Str("1"), "data" := Str("x"), "chunks" := List([sub])]);
    EmptyPayloadYaml(sub, c);
    EmptyPayloadJson(sub, c);
  }

  lemma EmptyPayloadYaml(sub: Value, c: Value)
    requires sub == Dict(map["id" := Str("2"), "data" := Str("")])
    requires c == Dict(map["id" := Str("1"), "data" := Str("x"), "chunks" := List([sub])])
    ensures Element(MakeFilter(None), c).Ok?
    ensures Expanded(MakeFilter(None), c) == Ok(Dict(c.fields["chunks" := List([Dict(map["id" := Str("2")])])]))
  {
    var f := MakeFilter(None);
    assert PlainlyHere(c) by {
      assert forall k :: k in c.fields ==> k == "id" || k == "data" || k == "chunks";
    }
    ElementFields(c);
    EmptyPayloadWritten(sub);
  }

  lemma EmptyPayloadJson(sub: Value, c: Value)
    requires sub == Dict(map["id" := Str("2"), "data" := Str("")])
    requires c == Dict(map["id" := Str("1"), "data" := Str("x"), "chunks" := List([sub])])
    ensures JsonDump.SerializeChunk(c, MakeFilter(None)).Ok?
    ensures ToValue(JsonDump.SerializeChunk(c, MakeFilter(None)).value) == c
  {
    assert JsonDump.Canonical(sub) by {
      assert forall k :: k in sub.fields ==> k == "id" || k == "data";
    }
    assert JsonDump.AllCanonical([sub]);
    assert JsonDump.Canonical(c) by {
      assert forall k :: k in c.fields ==> k == "id" || k == "data" || k == "chunks";
    }
    JsonDump.ChunkRoundTrip(c);
  }

  /** A list holding one id-only chunk with an empty payload is written as
      the id alone. */
  lemma EmptyPayloadWritten(sub: Value)
    requires sub == Dict(map["id" := Str("2"), "data" := Str("")])
    ensures Written(MakeFilter(None), List([sub])) == Ok(List([Dict(map["id" := Str("2")])]))
  {
    var f := MakeFilter(None);
    EmptyPayloadElement(sub);
    ElementsAt(f, [sub]);
    ExpandedAllAt(f, [sub]);
    assert ExpandedAll(f, [sub]).value == [Dict(map["id" := Str("2")])];
  }

  lemma EmptyPayloadElement(sub: Value)
    requires sub == Dict(map["id" := Str("2"), "data" := Str("")])
    ensures Element(MakeFilter(None), sub) == Ok(Mapping([("id", Plain(Str("2")))]))
    ensures Expanded(MakeFilter(None), sub) == Ok(Dict(map["id" := Str("2")]))
  {
    var f := MakeFilter(None);
    assert DataEntry(sub.fields) == [] && ChunksEntry(sub.fields) == [];
    assert ContextEntry(f, sub.fields) == Ok([]);
    assert IdEntry(sub.fields) + [] + [] + [] == [("id", Plain(Str("2")))];
    FieldsOfSnoc([], "id", Plain(Str("2")));
    assert [] + [("id", Plain(Str("2")))] == [("id", Plain(Str("2")))];
  }

  /** For a chunk both dumps reproduce, the YAML and the JSON written for it
      parse back to the same dict, at every depth. */
  lemma SameAsJson(c: Value)
    requires JsonDump.Canonical(c) && Plainly(c)
    ensures Element(MakeFilter(None), c).Ok? && JsonDump.SerializeChunk(c, MakeFilter(None)).Ok?
    ensures Expanded(MakeFilter(None), c) == Ok(ToValue(JsonDump.SerializeChunk(c, MakeFilter(None)).value))
  {
    ElementRoundTrip(c);
    JsonDump.ChunkRoundTrip(c);
  }
}
